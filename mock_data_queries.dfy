/** Queries on the fixture: the canned list response, a status filter, a
    search, and the resume references the upload stub would have produced. */
module MockDataQueries {
  import opened Wrappers
  import opened ApplicationTypes
  import opened JsString
  import opened JsArray
  import opened ApplicationsService
  import opened MockData

  /** The canned list response is what an unfiltered query returns. */
  lemma FixtureResponseIsUnfilteredQuery()
    ensures MOCK_APPLICATIONS_RESPONSE == GetApplications(MOCK_APPLICATIONS, NO_PARAMS)
    ensures MOCK_APPLICATIONS_RESPONSE.total == 5 && MOCK_APPLICATIONS_RESPONSE.totalPages == CeilDiv(5, 10)
  {
    GetApplicationsUnfiltered(MOCK_APPLICATIONS);
  }

  /** The records of the fixture that pass a test, one record at a time. */
  function Keep(p: Application -> bool, a: Application): (r: seq<Application>)
    ensures r == [] <==> !p(a)
    ensures r != [] ==> r == [a]
  {
    if p(a) then [a] else []
  }

  /** Filtering five records keeps, in order, exactly those that pass. */
  lemma FilterFive(a: Application, b: Application, c: Application, d: Application, e: Application, p: Application -> bool)
    ensures Filter([a, b, c, d, e], p) == Keep(p, a) + (Keep(p, b) + (Keep(p, c) + (Keep(p, d) + Keep(p, e))))
  {
    assert [a, b, c, d, e] == [a] + ([b] + ([c] + ([d] + ([e] + []))));
    FilterCons(a, [b] + ([c] + ([d] + ([e] + []))), p);
    FilterCons(b, [c] + ([d] + ([e] + [])), p);
    FilterCons(c, [d] + ([e] + []), p);
    FilterCons(d, [e] + [], p);
    FilterCons(e, [], p);
  }

  /** Filtering the fixture keeps, in order, exactly the records that pass. */
  lemma FilterFixture(p: Application -> bool)
    ensures Filter(MOCK_APPLICATIONS, p) == Keep(p, ALICE) + (Keep(p, BOB) + (Keep(p, CAROL) + (Keep(p, DAVID) + Keep(p, EMMA))))
  {
    FilterFive(ALICE, BOB, CAROL, DAVID, EMMA, p);
  }

  /** Filtering by "reviewed" yields record "2" alone. */
  lemma FixtureFilterReviewed()
    ensures GetApplications(MOCK_APPLICATIONS, NO_PARAMS.(status := Some(Reviewed))).applications == [BOB]
  {
    FilterFixture(StatusFilter(Reviewed));
  }

  // Facts about each record, each in a lemma of its own to keep every proof
  // small. Record "1" holds "alice" at the start of its name; no other record
  // holds "al" (in any case) in its name, email or position, so none can
  // hold "alice".

  lemma UrlAliceLiteral() ensures "/files/alice_johnson_resume.pdf" == "/files/" + "alice_johnson_resume.pdf" {
  }

  lemma UrlAlice() ensures ResumeUrlConsistent(ALICE) {
    UrlAliceLiteral();
  }

  lemma UrlBobLiteral() ensures "/files/bob_smith_resume.pdf" == "/files/" + "bob_smith_resume.pdf" {
  }

  lemma UrlBob() ensures ResumeUrlConsistent(BOB) {
    UrlBobLiteral();
  }

  lemma UrlCarolLiteral() ensures "/files/carol_davis_resume.pdf" == "/files/" + "carol_davis_resume.pdf" {
  }

  lemma UrlCarol() ensures ResumeUrlConsistent(CAROL) {
    UrlCarolLiteral();
  }

  lemma UrlDavidLiteral() ensures "/files/david_wilson_resume.pdf" == "/files/" + "david_wilson_resume.pdf" {
  }

  lemma UrlDavid() ensures ResumeUrlConsistent(DAVID) {
    UrlDavidLiteral();
  }

  lemma UrlEmmaLiteral() ensures "/files/emma_brown_resume.pdf" == "/files/" + "emma_brown_resume.pdf" {
  }

  lemma UrlEmma() ensures ResumeUrlConsistent(EMMA) {
    UrlEmmaLiteral();
  }

  lemma AliceMatchesAlice() ensures MatchesSearch(ALICE, "alice") {
    assert ToLowerCase("alice") == "alice";
    assert ToLowerCase(ALICE.fullName)[0..5] == "alice";
    IncludesComplete(ToLowerCase(ALICE.fullName), "alice", 0);
  }

  /** A record none of whose searched fields holds "alice" does not match it. */
  lemma MissesAlice(a: Application)
    requires !Includes(ToLowerCase(a.fullName), "alice")
    requires !Includes(ToLowerCase(a.email), "alice")
    requires !Includes(ToLowerCase(a.jobPosition), "alice")
    ensures !MatchesSearch(a, "alice")
  {
    assert ToLowerCase("alice") == "alice";
  }

  lemma BobNameLacksAlice() ensures !Includes(ToLowerCase(BOB.fullName), "alice") {
    LowerIncludesNeedsLeadingPair("Bob Smith", "alice");
  }

  lemma BobEmailLacksAlice() ensures !Includes(ToLowerCase(BOB.email), "alice") {
    LowerIncludesNeedsLeadingPair("bob.smith@email.com", "alice");
  }

  lemma BobPositionLacksAlice() ensures !Includes(ToLowerCase(BOB.jobPosition), "alice") {
    LowerIncludesNeedsLeadingPair("Backend Developer", "alice");
  }

  lemma BobMissesAlice() ensures !MatchesSearch(BOB, "alice") {
    BobNameLacksAlice();
    BobEmailLacksAlice();
    BobPositionLacksAlice();
    MissesAlice(BOB);
  }

  lemma CarolNameLacksAlice() ensures !Includes(ToLowerCase(CAROL.fullName), "alice") {
    LowerIncludesNeedsLeadingPair("Carol Davis", "alice");
  }

  lemma CarolEmailLacksAlice() ensures !Includes(ToLowerCase(CAROL.email), "alice") {
    LowerIncludesNeedsLeadingPair("carol.davis@email.com", "alice");
  }

  lemma CarolPositionLacksAlice() ensures !Includes(ToLowerCase(CAROL.jobPosition), "alice") {
    LowerIncludesNeedsLeadingPair("UI/UX Designer", "alice");
  }

  lemma CarolMissesAlice() ensures !MatchesSearch(CAROL, "alice") {
    CarolNameLacksAlice();
    CarolEmailLacksAlice();
    CarolPositionLacksAlice();
    MissesAlice(CAROL);
  }

  lemma DavidNameLacksAlice() ensures !Includes(ToLowerCase(DAVID.fullName), "alice") {
    LowerIncludesNeedsLeadingPair("David Wilson", "alice");
  }

  lemma DavidEmailLacksAlice() ensures !Includes(ToLowerCase(DAVID.email), "alice") {
    LowerIncludesNeedsLeadingPair("david.wilson@email.com", "alice");
  }

  lemma DavidPositionLacksAlice() ensures !Includes(ToLowerCase(DAVID.jobPosition), "alice") {
    LowerIncludesNeedsLeadingPair("Data Scientist", "alice");
  }

  lemma DavidMissesAlice() ensures !MatchesSearch(DAVID, "alice") {
    DavidNameLacksAlice();
    DavidEmailLacksAlice();
    DavidPositionLacksAlice();
    MissesAlice(DAVID);
  }

  lemma EmmaNameLacksAlice() ensures !Includes(ToLowerCase(EMMA.fullName), "alice") {
    LowerIncludesNeedsLeadingPair("Emma Brown", "alice");
  }

  lemma EmmaEmailLacksAlice() ensures !Includes(ToLowerCase(EMMA.email), "alice") {
    LowerIncludesNeedsLeadingPair("emma.brown@email.com", "alice");
  }

  lemma EmmaPositionLacksAlice() ensures !Includes(ToLowerCase(EMMA.jobPosition), "alice") {
    LowerIncludesNeedsLeadingPair("Full Stack Developer", "alice");
  }

  lemma EmmaMissesAlice() ensures !MatchesSearch(EMMA, "alice") {
    EmmaNameLacksAlice();
    EmmaEmailLacksAlice();
    EmmaPositionLacksAlice();
    MissesAlice(EMMA);
  }

  /** Every stored resume URL is `/files/` followed by the stored file name. */
  lemma FixtureResumeUrls()
    ensures forall k :: 0 <= k < |MOCK_APPLICATIONS| ==> ResumeUrlConsistent(MOCK_APPLICATIONS[k])
  {
    UrlAlice();
    UrlBob();
    UrlCarol();
    UrlDavid();
    UrlEmma();
  }

  /** Uploading a stored record's file through the stub reproduces the
      record's resume reference. */
  lemma FixtureMatchesUploadStub(k: nat, mimeType: string, size: nat)
    requires k < |MOCK_APPLICATIONS|
    ensures UploadResume(File(MOCK_APPLICATIONS[k].resumeFileName, mimeType, size))
      == FileUploadResponse(MOCK_APPLICATIONS[k].resumeUrl, MOCK_APPLICATIONS[k].resumeFileName)
  {
    FixtureResumeUrls();
    assert ResumeUrlConsistent(MOCK_APPLICATIONS[k]);
  }

  /** The only record matching the search "alice" is record "1". */
  lemma FixtureMatchesAlice()
    ensures Filter(MOCK_APPLICATIONS, SearchFilter("alice")) == [ALICE]
  {
    AliceMatchesAlice();
    BobMissesAlice();
    CarolMissesAlice();
    DavidMissesAlice();
    EmmaMissesAlice();
    FilterFixture(SearchFilter("alice"));
  }

  /** Searching for "alice" yields record "1" alone. */
  lemma FixtureSearchAlice()
    ensures GetApplications(MOCK_APPLICATIONS, NO_PARAMS.(search := Some("alice"))).applications == [ALICE]
  {
    FixtureMatchesAlice();
  }

}
