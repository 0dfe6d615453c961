/** The records exchanged between the pages and the applications service. */
module ApplicationTypes {
  import opened Wrappers

  /** The four review states of an application. */
  datatype ApplicationStatus = New | Reviewed | Shortlisted | Rejected

  /** The string literal the source uses for each status. */
  function StatusName(s: ApplicationStatus): (r: string)
    ensures r in ["new", "reviewed", "shortlisted", "rejected"]
  {
    match s
    case New => "new"
    case Reviewed => "reviewed"
    case Shortlisted => "shortlisted"
    case Rejected => "rejected"
  }

  /** One submitted application; optional fields are `Option`s. */
  datatype Application = Application(
    id: string,
    fullName: string,
    email: string,
    phoneNumber: Option<string>,
    linkedinProfile: Option<string>,
    portfolioWebsite: Option<string>,
    jobPosition: string,
    resumeUrl: string,
    resumeFileName: string,
    status: ApplicationStatus,
    additionalNotes: Option<string>,
    adminNotes: Option<string>,
    submittedAt: string,
    updatedAt: string)

  /** A list of applications with its pagination metadata. */
  datatype ApplicationsResponse = ApplicationsResponse(
    applications: seq<Application>,
    total: int,
    page: int,
    limit: int,
    totalPages: int)

  datatype SortOrder = Asc | Desc

  /** The optional filters and paging of a list query. */
  datatype GetApplicationsParams = GetApplicationsParams(
    page: Option<int>,
    limit: Option<int>,
    search: Option<string>,
    status: Option<ApplicationStatus>,
    jobPosition: Option<string>,
    sortBy: Option<string>,
    sortOrder: Option<SortOrder>)

  /** The `{}` default of a list query. */
  const NO_PARAMS := GetApplicationsParams(None, None, None, None, None, None, None)

  /** The body of a status change. */
  datatype UpdateApplicationStatusRequest = UpdateApplicationStatusRequest(
    status: ApplicationStatus,
    adminNotes: Option<string>)

  /** Where an uploaded resume was stored. */
  datatype FileUploadResponse = FileUploadResponse(url: string, fileName: string)

  /** A browser `File`, reduced to the three properties this code reads:
      its name, its declared MIME type and its size in bytes. */
  datatype File = File(name: string, mimeType: string, size: nat)
}
