/** The client-side validation rules: the resume file constants and the
    form, login and status-change schemas. The schema library's email and
    URL checks are the parameters `isEmail` and `isUrl`. A schema's verdict
    is the list of issues it reports, one per failing field, in the order the
    fields are declared; an empty list means the input is accepted. */
module Validation {
  import opened Wrappers
  import opened ApplicationTypes

  const PDF_TYPE := "application/pdf"
  const DOC_TYPE := "application/msword"
  const DOCX_TYPE := "application/vnd.openxmlformats-officedocument.wordprocessingml.document"

  /** The MIME types a resume may have. */
  const ALLOWED_FILE_TYPES: seq<string> := [PDF_TYPE, DOC_TYPE, DOCX_TYPE]

  /** The largest accepted resume, in bytes (10 MiB). */
  const MAX_FILE_SIZE: nat := 10 * 1024 * 1024

  const FILE_SCHEMA_MESSAGE := "File must be PDF or Word document under 10MB"
  const FULL_NAME_MESSAGE := "Full name must be at least 2 characters"
  const EMAIL_MESSAGE := "Please enter a valid email address"
  const URL_MESSAGE := "Please enter a valid URL"
  const JOB_POSITION_MESSAGE := "Please select a job position"
  const RESUME_MESSAGE := "Please upload your resume"
  const PASSWORD_MESSAGE := "Password must be at least 6 characters"

  /** The constants are 10 485 760 bytes and exactly the PDF, DOC and DOCX types. */
  lemma FileConstants(t: string)
    ensures MAX_FILE_SIZE == 10485760
    ensures t in ALLOWED_FILE_TYPES <==>
      t == "application/pdf" || t == "application/msword"
      || t == "application/vnd.openxmlformats-officedocument.wordprocessingml.document"
  {
  }

  /** The custom file schema: an allowed type and at most `MAX_FILE_SIZE` bytes. */
  predicate FileSchema(f: File): (b: bool)
    ensures b <==> (f.mimeType == "application/pdf" || f.mimeType == "application/msword"
                    || f.mimeType == "application/vnd.openxmlformats-officedocument.wordprocessingml.document")
                   && f.size <= 10485760
  {
    f.mimeType in ALLOWED_FILE_TYPES && f.size <= MAX_FILE_SIZE
  }

  /** The fields of the forms, by the names the schemas give them. */
  datatype Field =
    | FullName | Email | PhoneNumber | LinkedinProfile | PortfolioWebsite
    | JobPosition | Resume | AdditionalNotes | Password

  /** One reported problem: the field and the message shown for it. */
  datatype Issue = Issue(path: Field, message: string)

  /** The issue a field contributes: none when its rule holds. */
  function Check(path: Field, ok: bool, message: string): (r: seq<Issue>)
    ensures ok <==> r == []
    ensures !ok ==> r == [Issue(path, message)]
  {
    if ok then [] else [Issue(path, message)]
  }

  /** An optional URL field: absent, empty, or a well-formed URL. */
  predicate OptionalUrl(v: Option<string>, isUrl: string -> bool) {
    v.None? || v.value == "" || isUrl(v.value)
  }

  /** The resume field: a missing file and a file the file schema rejects
      report different messages. */
  function ResumeIssues(resume: Option<File>): (r: seq<Issue>)
    ensures r == [] <==> resume.Some? && FileSchema(resume.value)
    ensures resume.None? ==> r == [Issue(Resume, RESUME_MESSAGE)]
    ensures resume.Some? && !FileSchema(resume.value) ==> r == [Issue(Resume, FILE_SCHEMA_MESSAGE)]
  {
    match resume
    case None => [Issue(Resume, RESUME_MESSAGE)]
    case Some(f) => Check(Resume, FileSchema(f), FILE_SCHEMA_MESSAGE)
  }

  /** What the public application form submits. */
  datatype ApplicationFormData = ApplicationFormData(
    fullName: string,
    email: string,
    phoneNumber: Option<string>,
    linkedinProfile: Option<string>,
    portfolioWebsite: Option<string>,
    jobPosition: string,
    resume: Option<File>,
    additionalNotes: Option<string>)

  /** The application form schema. The phone number and the additional notes
      accept any string or none, so they never report an issue. */
  function ApplicationFormIssues(d: ApplicationFormData, isEmail: string -> bool, isUrl: string -> bool): (r: seq<Issue>)
    ensures r == [] <==>
      && |d.fullName| >= 2
      && isEmail(d.email)
      && OptionalUrl(d.linkedinProfile, isUrl)
      && OptionalUrl(d.portfolioWebsite, isUrl)
      && |d.jobPosition| >= 1
      && d.resume.Some? && FileSchema(d.resume.value)
  {
    Check(FullName, |d.fullName| >= 2, FULL_NAME_MESSAGE)
    + Check(Email, isEmail(d.email), EMAIL_MESSAGE)
    + Check(LinkedinProfile, OptionalUrl(d.linkedinProfile, isUrl), URL_MESSAGE)
    + Check(PortfolioWebsite, OptionalUrl(d.portfolioWebsite, isUrl), URL_MESSAGE)
    + Check(JobPosition, |d.jobPosition| >= 1, JOB_POSITION_MESSAGE)
    + ResumeIssues(d.resume)
  }

  /** An issue is reported by the form exactly when one of its fields
      reports it. */
  lemma ApplicationFormIssueSources(d: ApplicationFormData, isEmail: string -> bool, isUrl: string -> bool)
    ensures forall x :: x in ApplicationFormIssues(d, isEmail, isUrl) <==>
      || x in Check(FullName, |d.fullName| >= 2, FULL_NAME_MESSAGE)
      || x in Check(Email, isEmail(d.email), EMAIL_MESSAGE)
      || x in Check(LinkedinProfile, OptionalUrl(d.linkedinProfile, isUrl), URL_MESSAGE)
      || x in Check(PortfolioWebsite, OptionalUrl(d.portfolioWebsite, isUrl), URL_MESSAGE)
      || x in Check(JobPosition, |d.jobPosition| >= 1, JOB_POSITION_MESSAGE)
      || x in ResumeIssues(d.resume)
  {
    forall x {
      InConcatenation(x, Check(FullName, |d.fullName| >= 2, FULL_NAME_MESSAGE),
        Check(Email, isEmail(d.email), EMAIL_MESSAGE),
        Check(LinkedinProfile, OptionalUrl(d.linkedinProfile, isUrl), URL_MESSAGE),
        Check(PortfolioWebsite, OptionalUrl(d.portfolioWebsite, isUrl), URL_MESSAGE),
        Check(JobPosition, |d.jobPosition| >= 1, JOB_POSITION_MESSAGE),
        ResumeIssues(d.resume));
    }
  }

  /** Field by field: each text rule's message is reported exactly when that
      rule fails, and the two free-text fields are never reported. */
  lemma ApplicationFormFieldRules(d: ApplicationFormData, isEmail: string -> bool, isUrl: string -> bool)
    ensures Issue(FullName, FULL_NAME_MESSAGE) in ApplicationFormIssues(d, isEmail, isUrl) <==> |d.fullName| < 2
    ensures Issue(Email, EMAIL_MESSAGE) in ApplicationFormIssues(d, isEmail, isUrl) <==> !isEmail(d.email)
    ensures Issue(LinkedinProfile, URL_MESSAGE) in ApplicationFormIssues(d, isEmail, isUrl) <==> !OptionalUrl(d.linkedinProfile, isUrl)
    ensures Issue(PortfolioWebsite, URL_MESSAGE) in ApplicationFormIssues(d, isEmail, isUrl) <==> !OptionalUrl(d.portfolioWebsite, isUrl)
    ensures Issue(JobPosition, JOB_POSITION_MESSAGE) in ApplicationFormIssues(d, isEmail, isUrl) <==> d.jobPosition == ""
    ensures forall m :: Issue(PhoneNumber, m) !in ApplicationFormIssues(d, isEmail, isUrl)
    ensures forall m :: Issue(AdditionalNotes, m) !in ApplicationFormIssues(d, isEmail, isUrl)
  {
    ApplicationFormIssueSources(d, isEmail, isUrl);
  }

  /** The resume field reports a missing file and a rejected file apart. */
  lemma ApplicationFormResumeRules(d: ApplicationFormData, isEmail: string -> bool, isUrl: string -> bool)
    ensures Issue(Resume, RESUME_MESSAGE) in ApplicationFormIssues(d, isEmail, isUrl) <==> d.resume.None?
    ensures Issue(Resume, FILE_SCHEMA_MESSAGE) in ApplicationFormIssues(d, isEmail, isUrl) <==> d.resume.Some? && !FileSchema(d.resume.value)
  {
    ApplicationFormIssueSources(d, isEmail, isUrl);
    ResumeMessagesDiffer();
  }

  /** A missing resume and a rejected one are told apart. */
  lemma ResumeMessagesDiffer()
    ensures RESUME_MESSAGE != FILE_SCHEMA_MESSAGE
  {
    assert |RESUME_MESSAGE| != |FILE_SCHEMA_MESSAGE|;
  }

  /** An issue is reported by the form when one of its fields reports it. */
  lemma InConcatenation(x: Issue, c1: seq<Issue>, c2: seq<Issue>, c3: seq<Issue>, c4: seq<Issue>, c5: seq<Issue>, c6: seq<Issue>)
    ensures x in c1 + c2 + c3 + c4 + c5 + c6 <==> x in c1 || x in c2 || x in c3 || x in c4 || x in c5 || x in c6
  {
  }

  /** What the admin login form submits. */
  datatype AdminLoginData = AdminLoginData(email: string, password: string)

  /** The admin login schema: a well-formed email and a password of at
      least six characters. */
  function AdminLoginIssues(d: AdminLoginData, isEmail: string -> bool): (r: seq<Issue>)
    ensures r == [] <==> isEmail(d.email) && |d.password| >= 6
    ensures Issue(Password, PASSWORD_MESSAGE) in r <==> |d.password| < 6
  {
    Check(Email, isEmail(d.email), EMAIL_MESSAGE)
    + Check(Password, |d.password| >= 6, PASSWORD_MESSAGE)
  }

  /** The status enumeration of the status-change schema: the status whose
      name is `s`, if any. */
  function ParseStatus(s: string): (r: Option<ApplicationStatus>)
    ensures r.Some? ==> StatusName(r.value) == s
  {
    if s == "new" then Some(New)
    else if s == "reviewed" then Some(Reviewed)
    else if s == "shortlisted" then Some(Shortlisted)
    else if s == "rejected" then Some(Rejected)
    else None
  }

  /** Every status is accepted under its own name, so the enumeration and the
      status type hold the same four values. */
  lemma ParseStatusName(st: ApplicationStatus)
    ensures ParseStatus(StatusName(st)) == Some(st)
  {
  }

  /** The accepted strings are exactly the four status names. */
  lemma ParseStatusAccepts(s: string)
    ensures ParseStatus(s).Some? <==> s in ["new", "reviewed", "shortlisted", "rejected"]
  {
  }

  /** The status-change schema: a known status and optional notes. */
  function UpdateStatusSchema(status: string, adminNotes: Option<string>): (r: Option<UpdateApplicationStatusRequest>)
    ensures r.Some? <==> status in ["new", "reviewed", "shortlisted", "rejected"]
    ensures r.Some? ==> StatusName(r.value.status) == status && r.value.adminNotes == adminNotes
  {
    match ParseStatus(status)
    case None => None
    case Some(st) => Some(UpdateApplicationStatusRequest(st, adminNotes))
  }
}
