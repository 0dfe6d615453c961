/** The five-record fixture the in-memory service serves, its canned list
    response, and lookups and status changes on it. */
module MockData {
  import opened Wrappers
  import opened ApplicationTypes
  import opened JsString
  import opened JsArray
  import opened ApplicationsService

  const ALICE := Application("1", "Alice Johnson", "alice.johnson@email.com", Some("+1-555-0123"),
    Some("https://linkedin.com/in/alice-johnson"), Some("https://alice-portfolio.com"),
    "Frontend Developer", "/files/alice_johnson_resume.pdf", "alice_johnson_resume.pdf", New,
    Some("Passionate about React and modern web technologies."), None,
    "2024-01-15T10:30:00.000Z", "2024-01-15T10:30:00.000Z")

  const BOB := Application("2", "Bob Smith", "bob.smith@email.com", Some("+1-555-0124"),
    None, None,
    "Backend Developer", "/files/bob_smith_resume.pdf", "bob_smith_resume.pdf", Reviewed,
    Some("5 years of experience with Node.js and Python."), Some("Strong technical background. Schedule for interview."),
    "2024-01-14T14:20:00.000Z", "2024-01-16T09:15:00.000Z")

  const CAROL := Application("3", "Carol Davis", "carol.davis@email.com", None,
    Some("https://linkedin.com/in/carol-davis"), None,
    "UI/UX Designer", "/files/carol_davis_resume.pdf", "carol_davis_resume.pdf", Shortlisted,
    Some("Portfolio showcases excellent design skills."), Some("Great portfolio. Moving to final interview round."),
    "2024-01-13T16:45:00.000Z", "2024-01-17T11:30:00.000Z")

  const DAVID := Application("4", "David Wilson", "david.wilson@email.com", Some("+1-555-0125"),
    None, None,
    "Data Scientist", "/files/david_wilson_resume.pdf", "david_wilson_resume.pdf", Rejected,
    Some("PhD in Statistics with machine learning focus."), Some("Overqualified for this position."),
    "2024-01-12T09:10:00.000Z", "2024-01-18T13:45:00.000Z")

  const EMMA := Application("5", "Emma Brown", "emma.brown@email.com", Some("+1-555-0126"),
    None, Some("https://emmabrown.dev"),
    "Full Stack Developer", "/files/emma_brown_resume.pdf", "emma_brown_resume.pdf", New,
    Some("Full stack developer with React and Django experience."), None,
    "2024-01-16T08:20:00.000Z", "2024-01-16T08:20:00.000Z")

  /** The stored applications, in order. */
  const MOCK_APPLICATIONS: seq<Application> := [ALICE, BOB, CAROL, DAVID, EMMA]

  /** The canned list response built from the fixture. */
  const MOCK_APPLICATIONS_RESPONSE := ApplicationsResponse(MOCK_APPLICATIONS, |MOCK_APPLICATIONS|, 1, 10, 1)

  /** Five records with the ids "1" to "5", all different. */
  lemma FixtureIds()
    ensures |MOCK_APPLICATIONS| == 5
    ensures forall k :: 0 <= k < 5 ==> MOCK_APPLICATIONS[k].id == [('1' as int + k) as char]
    ensures forall i, j :: 0 <= i < j < 5 ==> MOCK_APPLICATIONS[i].id != MOCK_APPLICATIONS[j].id
  {
  }

  /** The statuses in order. */
  lemma FixtureStatuses()
    ensures seq(5, k requires 0 <= k < 5 => MOCK_APPLICATIONS[k].status) == [New, Reviewed, Shortlisted, Rejected, New]
  {
  }

  /** A record's resume URL is `/files/` followed by its file name. */
  predicate ResumeUrlConsistent(a: Application) {
    a.resumeUrl == FILES_PREFIX + a.resumeFileName
  }

  /** An absent id is not found. */
  lemma FixtureMissingId()
    ensures GetApplication(MOCK_APPLICATIONS, "999") == Failure(NOT_FOUND)
    ensures UpdateApplicationStatus(MOCK_APPLICATIONS, "999", UpdateApplicationStatusRequest(New, None), "t") == Failure(NOT_FOUND)
  {
  }

  /** Shortlisting record "2" returns it shortlisted with its notes kept, while
      a later lookup still sees it as reviewed: nothing is stored. */
  lemma FixtureShortlistBob(now: string)
    ensures UpdateApplicationStatus(MOCK_APPLICATIONS, "2", UpdateApplicationStatusRequest(Shortlisted, None), now)
      == Success(BOB.(status := Shortlisted, updatedAt := now))
    ensures GetApplication(MOCK_APPLICATIONS, "2") == Success(BOB)
    ensures BOB.status == Reviewed
  {
    assert Find(MOCK_APPLICATIONS, IdIs("2")) == Some(BOB);
  }
}
