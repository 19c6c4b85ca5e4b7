/** The service inquiry form: the default service picked from the
    navigation state or the path, the document upload, and the inquiry
    message and submission built from the form. */
module ServiceForm {
  import opened Common
  import opened Text
  import opened Leads

  datatype InquiryForm = InquiryForm(
    name: string,
    email: string,
    company: string,
    serviceType: string,
    engagementType: string,
    projectScope: string,
    timeline: string,
    budget: string,
    appointmentDate: string,
    appointmentTime: string,
    meetingMode: string,
    document: Option<FileInfo>,
    documentName: string)

  /** The form as first shown, with the given service preselected. */
  function InitialInquiry(defaultService: string): InquiryForm
  {
    InquiryForm("", "", "", defaultService, "consultation", "", "", "", "", "", "", None, "")
  }

  /** `defaultService`: `stateType` is `location.state?.serviceType` (None
      when there is no state or no such field).  A non-empty one wins;
      otherwise the first path fragment that matches picks the service. */
  method DefaultService(stateType: Option<string>, pathname: string) returns (r: string)
    ensures stateType.Some? && stateType.value != "" ==> r == stateType.value
    ensures (stateType.None? || stateType.value == "") ==>
      if Contains(pathname, "it-solutions") then r == "it"
      else if Contains(pathname, "wellness") then r == "wellness"
      else if Contains(pathname, "platform") then r == "platform"
      else r == ""
  {
    r := "";
    if stateType.Some? && stateType.value != "" {
      r := stateType.value;
    } else if Contains(pathname, "it-solutions") {
      r := "it";
    } else if Contains(pathname, "wellness") {
      r := "wellness";
    } else if Contains(pathname, "platform") {
      r := "platform";
    }
  }

  /** The detail lines of a consultation request. */
  function ConsultationLines(f: InquiryForm, serviceTitle: string): seq<string>
  {
    ["Service Area: " + OrElse(OrElse(f.serviceType, serviceTitle), "N/A"),
     "Timeline: " + OrElse(f.timeline, "N/A"),
     "Budget: " + OrElse(f.budget, "N/A"),
     "Scope: " + f.projectScope]
  }

  /** The detail lines of an appointment request. */
  function AppointmentLines(f: InquiryForm): seq<string>
  {
    ["Date: " + f.appointmentDate,
     "Time: " + f.appointmentTime,
     "Meeting Mode: " + f.meetingMode]
  }

  /** The detail lines for the engagement type. */
  function DetailLines(f: InquiryForm, serviceTitle: string): seq<string>
  {
    if f.engagementType == "consultation" then ConsultationLines(f, serviceTitle)
    else if f.engagementType == "appointment" then AppointmentLines(f)
    else []
  }

  /** The lines of the inquiry message: company and engagement type, then
      the consultation or appointment details, then the attached document. */
  function InquiryLines(f: InquiryForm, serviceTitle: string): seq<string>
  {
    ["Company: " + f.company, "Engagement Type: " + f.engagementType]
    + DetailLines(f, serviceTitle)
    + (if f.documentName != "" then ["Document Attached: " + f.documentName] else [])
  }

  /** `messageDetails`, built one `+=` at a time. */
  method ComposeInquiry(f: InquiryForm, serviceTitle: string) returns (message: string)
    ensures message == JoinLines(InquiryLines(f, serviceTitle))
  {
    var company, engagement := "Company: " + f.company, "Engagement Type: " + f.engagementType;
    message := company + "\n" + engagement;
    ghost var lines := [company, engagement];
    assert Join(lines, '\n') == message by {
      assert lines[1..] == [engagement];
    }
    if f.engagementType == "consultation" {
      var area := "Service Area: " + OrElse(OrElse(f.serviceType, serviceTitle), "N/A");
      message := AppendLine(message, area, lines);
      var timeline := "Timeline: " + OrElse(f.timeline, "N/A");
      message := AppendLine(message, timeline, lines + [area]);
      var budget := "Budget: " + OrElse(f.budget, "N/A");
      message := AppendLine(message, budget, lines + [area] + [timeline]);
      var scope := "Scope: " + f.projectScope;
      message := AppendLine(message, scope, lines + [area] + [timeline] + [budget]);
      lines := lines + [area] + [timeline] + [budget] + [scope];
      assert lines == [company, engagement] + ConsultationLines(f, serviceTitle);
    } else if f.engagementType == "appointment" {
      var date := "Date: " + f.appointmentDate;
      message := AppendLine(message, date, lines);
      var time := "Time: " + f.appointmentTime;
      message := AppendLine(message, time, lines + [date]);
      var mode := "Meeting Mode: " + f.meetingMode;
      message := AppendLine(message, mode, lines + [date] + [time]);
      lines := lines + [date] + [time] + [mode];
      assert lines == [company, engagement] + AppointmentLines(f);
    }
    assert lines == [company, engagement] + DetailLines(f, serviceTitle);
    if f.documentName != "" {
      var doc := "Document Attached: " + f.documentName;
      message := AppendLine(message, doc, lines);
      lines := lines + [doc];
    }
    assert lines == InquiryLines(f, serviceTitle);
  }

  /** The submission `handleSubmit` sends. */
  function BuildInquiry(f: InquiryForm, serviceTitle: string): Submission
  {
    var n := SplitName(f.name);
    Submission(n.first, n.last, f.email, None, JoinLines(InquiryLines(f, serviceTitle)),
               "service_inquiry", None)
  }

  /** The inquiry as `handleSubmit` assembles it: the trimmed name split at
      its first space, the message built line by line. */
  method AssembleInquiry(f: InquiryForm, serviceTitle: string) returns (sent: Submission)
    ensures sent == BuildInquiry(f, serviceTitle)
  {
    var n := SplitName(f.name);
    var message := ComposeInquiry(f, serviceTitle);
    sent := Submission(n.first, n.last, f.email, None, message, "service_inquiry", None);
  }

  /** The page's state; `serviceTitle` is `location.state?.serviceTitle || ''`. */
  class InquiryPage {
    var form: InquiryForm
    var serviceTitle: string
    var isSubmitting: bool
    var isSuccess: bool

    constructor (stateType: Option<string>, stateTitle: Option<string>, pathname: string)
      ensures form == InitialInquiry(form.serviceType)
      ensures stateType.Some? && stateType.value != "" ==> form.serviceType == stateType.value
      ensures (stateType.None? || stateType.value == "") ==>
        if Contains(pathname, "it-solutions") then form.serviceType == "it"
        else if Contains(pathname, "wellness") then form.serviceType == "wellness"
        else if Contains(pathname, "platform") then form.serviceType == "platform"
        else form.serviceType == ""
      ensures serviceTitle == (if stateTitle.Some? then stateTitle.value else "")
      ensures !isSubmitting && !isSuccess
    {
      var d := DefaultService(stateType, pathname);
      form := InitialInquiry(d);
      serviceTitle := if stateTitle.Some? then stateTitle.value else "";
      isSubmitting := false;
      isSuccess := false;
    }

    /** `handleFileUpload`: without a file nothing changes; with one, the
        document and its name are set and every other field is kept. */
    method UploadDocument(file: Option<FileInfo>)
      modifies this
      ensures file.None? ==> form == old(form)
      ensures file.Some? ==> form == old(form).(document := file, documentName := file.value.name)
      ensures serviceTitle == old(serviceTitle) && isSubmitting == old(isSubmitting) && isSuccess == old(isSuccess)
    {
      if file.Some? {
        form := form.(document := file, documentName := file.value.name);
      }
    }

    /** The flags around the insert: `isSubmitting` is raised while it is in
        flight, success shows the confirmation, and `isSubmitting` is reset
        either way. */
    method TrackInsert(ok: bool)
      modifies this
      ensures isSuccess == (old(isSuccess) || ok) && !isSubmitting
      ensures form == old(form) && serviceTitle == old(serviceTitle)
    {
      isSubmitting := true;
      if ok {
        isSuccess := true;
      }
      isSubmitting := false;
    }

    /** `handleSubmit`: sends the inquiry; the insert produced `outcome`. */
    method Submit(outcome: Result<()>) returns (sent: Submission)
      modifies this
      ensures sent == BuildInquiry(old(form), old(serviceTitle))
      ensures isSuccess == (old(isSuccess) || outcome.Ok?)
      ensures !isSubmitting
      ensures form == old(form) && serviceTitle == old(serviceTitle)
    {
      sent := AssembleInquiry(form, serviceTitle);
      TrackInsert(outcome.Ok?);
    }
  }

  // ---- Properties of the inquiry ----

  /** The message starts with the company and engagement lines; a
      consultation adds exactly the service area, timeline, budget and scope
      lines, an appointment exactly the date, time and meeting mode lines,
      anything else nothing; the document line is there exactly when a
      document name is set, and then it is last. */
  lemma InquiryShape(f: InquiryForm, serviceTitle: string)
    ensures var ls := InquiryLines(f, serviceTitle);
      var doc := if f.documentName != "" then 1 else 0;
      && ls[..2] == ["Company: " + f.company, "Engagement Type: " + f.engagementType]
      && (f.engagementType == "consultation" ==>
            |ls| == 6 + doc
            && ls[2..6] == ["Service Area: " + OrElse(OrElse(f.serviceType, serviceTitle), "N/A"),
                            "Timeline: " + OrElse(f.timeline, "N/A"),
                            "Budget: " + OrElse(f.budget, "N/A"),
                            "Scope: " + f.projectScope])
      && (f.engagementType == "appointment" ==>
            |ls| == 5 + doc
            && ls[2..5] == ["Date: " + f.appointmentDate, "Time: " + f.appointmentTime,
                            "Meeting Mode: " + f.meetingMode])
      && (f.engagementType != "consultation" && f.engagementType != "appointment" ==> |ls| == 2 + doc)
      && (f.documentName != "" <==> ls[|ls| - 1] == "Document Attached: " + f.documentName)
  {
    var ls := InquiryLines(f, serviceTitle);
    if f.documentName == "" {
      var last := ls[|ls| - 1];
      assert |last| > 2 && last[2] != 'c';
    }
  }

  /** The service area line falls back from the chosen service type to the
      service title to `'N/A'`. */
  lemma ServiceAreaFallback(f: InquiryForm, serviceTitle: string)
    requires f.engagementType == "consultation"
    ensures var area := InquiryLines(f, serviceTitle)[2];
      && (f.serviceType != "" ==> area == "Service Area: " + f.serviceType)
      && (f.serviceType == "" && serviceTitle != "" ==> area == "Service Area: " + serviceTitle)
      && (f.serviceType == "" && serviceTitle == "" ==> area == "Service Area: N/A")
  {
  }

  /** Every inquiry goes out without a phone and a source id, as a service
      inquiry, with the name split as on the application page. */
  lemma InquiryPayload(f: InquiryForm, serviceTitle: string)
    ensures var s := BuildInquiry(f, serviceTitle);
      && s.phone.None? && s.sourceId.None? && s.sourceType == "service_inquiry"
      && s.email == f.email
      && NameParts(s.firstName, s.lastName) == SplitName(f.name)
  {
  }
}
