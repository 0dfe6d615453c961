# resume-collector front end, modelled in Dafny

This project models the decision logic of the resume-collector web front
end, a React application where candidates submit applications with a resume
and administrators review them. The logic is modelled as pure Dafny
functions with proofs about them. It covers four pieces.

- **Resume file checks.**
  - `validateFile` checks the MIME type against an allow-list first, then checks the size against an inclusive 10 MiB bound.
  - `isValidFileType`.
  - `getFileExtension`, with its `lastIndexOf`/`>>> 0` arithmetic.
  - The client-side schemas: the custom file schema, the application form, the admin login and the status change.
- **The in-memory applications service**, i.e. the mock branches of `applicationsService`.
  - The list query: a case-insensitive search over name, email and position, then status and position equality, then the paging metadata.
  - Lookup by id.
  - The status change, which returns an updated copy and leaves the store alone.
  - The resume upload stub.
- **The route guard** `AuthGuard`, a three-way decision between redirect to login, access denied and the protected children, and `AuthLoadingGuard`.
- **The five-record fixture** and its canned list response. The query, lookup and update results on it are proved as concrete cases.

Every module is pure, as is the code it models:

- `Wrappers`: `Option` and `Result`.
- `JsString`: `toLowerCase`, `includes` (with the prefix test its scan is built on), `lastIndexOf`, `slice` and `>>> 0` over `seq<char>`.
- `JsArray`: `filter` and `find` over `seq`.
- `ApplicationTypes`: the records from the type declarations.
- `Validation`, `FileUtils`, `ApplicationsService` and `RouteGuards`: the modelled code.
- `MockData` and `MockDataQueries`: the fixture and the proofs about it.

Parts of the environment become parameters:

- The stored list is the parameter `store`. The fixture `MockData.MOCK_APPLICATIONS` instantiates it.
- The clock reading `new Date().toISOString()` is the parameter `now`.
- The schema library's `email()` and `url()` checks are the function parameters `isEmail` and `isUrl`.
- The two session flags read by the guard and the current location are plain inputs.

A schema's verdict is the list of issues it reports. Each issue is a field and a message, listed in field order, and an empty list means the input is accepted.

The list query returns every matching record. `page` and `limit` only shape the paging fields of `ApplicationsResponse` (frontend/src/types/application.ts:41-47), and `sortBy`/`sortOrder` are ignored, because the mock branch does exactly that: it never slices the list to one page.

## Model

| member | source | states |
|---|---|---|
| JsString.ToLowerCase | frontend/src/services/applications.ts:60-65 | lower-casing keeps the length and lower-cases each character by `LowerChar`: every ASCII capital becomes its small letter, no capital is left, and every other character is unchanged |
| JsString.StartsWith | frontend/src/services/applications.ts:63-65 | the prefix test the `includes` scan is built on: the empty needle always starts the text, and a needle longer than the text never does; the full prefix relation is in StartsWithIsPrefix |
| JsString.Includes | frontend/src/services/applications.ts:63-65 | the empty needle is always included, and a needle longer than the text never is; the full substring relation is in IncludesIsSubstring |
| JsString.LowerChar | frontend/src/services/applications.ts:60-65 | lower-casing maps each ASCII capital to its small letter (+32), leaves every other character alone, and never yields a capital |
| JsString.ToLowerCaseIdempotent | frontend/src/services/applications.ts:60 | lower-casing an already lower-cased text changes nothing |
| JsString.StartsWithIsPrefix | frontend/src/services/applications.ts:63-65 | the character-wise prefix test under the `includes` scan holds exactly when the needle is a prefix of the text |
| JsString.IncludesSound | frontend/src/services/applications.ts:63-65 | when `includes` answers true, the needle occurs as a contiguous block of the text |
| JsString.IncludesComplete | frontend/src/services/applications.ts:63-65 | an occurrence of the needle at any position makes `includes` answer true |
| JsString.IncludesIsSubstring | frontend/src/services/applications.ts:63-65 | `includes` holds if and only if the needle is a substring of the text |
| JsString.IncludesNeedsLeadingPair | frontend/src/services/applications.ts:63-65 | a text in which the needle's first two characters never occur side by side does not include the needle |
| JsString.LowerIncludesNeedsLeadingPair | frontend/src/services/applications.ts:63-65 | the same for the lower-cased text, judged on the original characters |
| JsString.LastIndexOf | frontend/src/lib/fileUtils.ts:37 | the result is -1 exactly when the character is absent; otherwise it indexes the character, and no later position holds it |
| JsString.Slice | frontend/src/lib/fileUtils.ts:37 | `slice(start)` is the suffix from `start`, or empty once `start` reaches the end |
| JsString.ToUint32 | frontend/src/lib/fileUtils.ts:37 | `x >>> 0` lies below 2^32, keeps values already in range, and adds 2^32 to negatives down to -2^32 |
| JsArray.Filter | frontend/src/services/applications.ts:61-75 | `filter` never lengthens the array, keeps only passing elements that come from the source, and keeps every passing element |
| JsArray.FilterCons | frontend/src/services/applications.ts:61-75 | the first element is kept exactly when it passes, ahead of the filtered rest |
| JsArray.FilterIsSubsequence | frontend/src/services/applications.ts:61-75 | a filtered array is an order-preserving subsequence of its source |
| JsArray.FilterKeepsAll | frontend/src/services/applications.ts:57-75 | a filter every element passes returns the array unchanged |
| JsArray.FilterFuse | frontend/src/services/applications.ts:57-75 | two successive filters equal one filter by their conjunction |
| JsArray.Find | frontend/src/services/applications.ts:95 | `find` gives `undefined` exactly when no element passes, else the first passing element |
| Validation.FileConstants | frontend/src/lib/validation.ts:4-9 | the size bound is 10485760 bytes and the allowed types are exactly the PDF, DOC and DOCX MIME strings |
| Validation.FileSchema | frontend/src/lib/validation.ts:12-22 | the file schema accepts exactly the PDF, DOC and DOCX MIME types at no more than 10485760 bytes |
| Validation.Check | frontend/src/lib/validation.ts:25-36 | a field reports nothing when its rule holds and exactly one issue, on its own path, when it fails |
| Validation.ResumeIssues | frontend/src/lib/validation.ts:32-34 | the resume field is clean exactly when a file is present and the file schema accepts it; a missing file and a rejected file report different messages |
| Validation.ApplicationFormIssues | frontend/src/lib/validation.ts:25-36 | the form is accepted exactly when the name has at least 2 characters, the email is valid, both URL fields are absent, empty or valid, the position is non-empty and an acceptable resume is present |
| Validation.ApplicationFormIssueSources | frontend/src/lib/validation.ts:25-36 | an issue is reported by the form exactly when one of its fields reports it |
| Validation.ApplicationFormFieldRules | frontend/src/lib/validation.ts:25-36 | each text rule's message appears exactly when that rule fails; the phone number and the additional notes never report |
| Validation.ApplicationFormResumeRules | frontend/src/lib/validation.ts:32-34 | "Please upload your resume" appears exactly when no file is given; the file-schema message appears exactly when a file is given and rejected |
| Validation.AdminLoginIssues | frontend/src/lib/validation.ts:39-42 | login is accepted exactly when the email is valid and the password has at least 6 characters; the password message appears exactly when it is shorter |
| Validation.ParseStatus | frontend/src/lib/validation.ts:46 | an accepted status string is the name of the status it yields |
| Validation.ParseStatusName | frontend/src/lib/validation.ts:46 | every application status is accepted under its own name, so the enumeration and the status type agree |
| Validation.ParseStatusAccepts | frontend/src/lib/validation.ts:46 | exactly the strings new, reviewed, shortlisted and rejected are accepted |
| Validation.UpdateStatusSchema | frontend/src/lib/validation.ts:45-48 | the status-change body is accepted exactly for the four status names, and keeps the named status and the optional notes |
| FileUtils.IsValidFileType | frontend/src/lib/fileUtils.ts:40-42 | the type check holds exactly for the three allowed MIME strings |
| FileUtils.ValidateFile | frontend/src/lib/fileUtils.ts:8-24 | no error exactly when the type is allowed and size <= 10485760; a format error exactly when the type is not allowed; a size error exactly when the type is allowed and the size is larger; never the unknown kind; the fixed messages |
| FileUtils.ValidateFileAgreesWithFileSchema | frontend/src/lib/fileUtils.ts:8-24 | the upload validator and the form's file schema accept the same files |
| FileUtils.FormatCheckedFirst | frontend/src/lib/fileUtils.ts:9-14 | an oversized file of a wrong type is reported as a format error |
| FileUtils.SizeBoundInclusive | frontend/src/lib/fileUtils.ts:16-21 | exactly 10485760 bytes passes and one byte more is a size error |
| FileUtils.GetFileExtension | frontend/src/lib/fileUtils.ts:36-38 | the extension is always a suffix of the name, and holds no dot whenever the name is at most 2^32 units long |
| FileUtils.ExtensionWithoutInnerDot | frontend/src/lib/fileUtils.ts:36-38 | a name with no dot, or with its only dot in front (".bashrc"), has the empty extension |
| FileUtils.ExtensionAfterLastDot | frontend/src/lib/fileUtils.ts:36-38 | with its last dot at index i >= 1, the extension is the dot-free suffix after it, the name is prefix + "." + extension, and a trailing dot gives "" |
| ApplicationsService.OrDefault | frontend/src/services/applications.ts:80-81 | `x \|\| d` yields d for an absent value or 0, and the value otherwise |
| ApplicationsService.CeilDiv | frontend/src/services/applications.ts:82 | `Math.ceil(n / d)` is the least r with r*d >= n for a positive d, and the matching bound for a negative d |
| ApplicationsService.MatchesSearch | frontend/src/services/applications.ts:60-65 | a record matches a search exactly when the lower-cased search text is a substring of its lower-cased name, email or position |
| ApplicationsService.MatchesAll | frontend/src/services/applications.ts:59-75 | with no active filter every record passes; a passing record has the requested status and position and contains the search text in one of the three fields |
| ApplicationsService.GetApplications | frontend/src/services/applications.ts:77-83 | total is the length of the returned list, which is no longer than the store; page defaults to 1, limit to 10 (also for 0); totalPages is ceil(total / limit) |
| ApplicationsService.GetApplicationsIsOneFilter | frontend/src/services/applications.ts:57-75 | the search, status and position filters in turn return the store filtered by their conjunction |
| ApplicationsService.GetApplicationsMembership | frontend/src/services/applications.ts:59-75 | a stored record is listed if and only if it passes every supplied filter, and everything listed comes from the store |
| ApplicationsService.GetApplicationsKeepsOrder | frontend/src/services/applications.ts:57-75 | the list is an order-preserving subsequence of the store |
| ApplicationsService.GetApplicationsUnfiltered | frontend/src/services/applications.ts:57-83 | with no parameters the whole store is listed, on page 1 with limit 10 and ceil(n / 10) pages |
| ApplicationsService.EmptyFiltersImposeNothing | frontend/src/services/applications.ts:59-75 | an empty search text or position gives the same response as none |
| ApplicationsService.SearchIgnoresCase | frontend/src/services/applications.ts:60-65 | a search text and its lower-cased form match the same records |
| ApplicationsService.GetApplication | frontend/src/services/applications.ts:91-100 | "Application not found" exactly when no record has the id, else the first record with that id |
| ApplicationsService.MergeNotes | frontend/src/services/applications.ts:118 | `data.adminNotes \|\| application.adminNotes`: the new notes when present and non-empty, else the current ones |
| ApplicationsService.UpdateApplicationStatus | frontend/src/services/applications.ts:107-121 | not found exactly when the lookup fails; otherwise the looked-up record with the new status, the new notes when non-empty (else the old), updatedAt set to the clock, and every other field unchanged |
| ApplicationsService.UploadResume | frontend/src/services/applications.ts:29-37 | the stub reports the file's own name and the URL "/files/" followed by that name |
| ApplicationsService.UploadResumeUrlDeterminesName | frontend/src/services/applications.ts:33-36 | two uploads given the same URL had the same file name |
| RouteGuards.AuthGuard | frontend/src/components/AuthGuard.tsx:9-46 | a redirect to /admin/login that remembers the location and replaces history exactly when unauthenticated; access denied exactly when authenticated, admin required and not admin; the children in every other case |
| RouteGuards.DefaultAdmitsAuthenticated | frontend/src/components/AuthGuard.tsx:9 | with `requireAdmin` omitted every authenticated user sees the children |
| RouteGuards.RequireAdminIsStricter | frontend/src/components/AuthGuard.tsx:30-46 | requiring the admin role never admits a user that not requiring it would refuse |
| RouteGuards.AuthLoadingGuard | frontend/src/components/AuthGuard.tsx:50-54 | always renders the children, as an authenticated user sees them with no role required |
| MockData.FixtureIds | frontend/src/data/mockData.ts:49-121 | five records with the ids "1" to "5", pairwise distinct |
| MockData.FixtureStatuses | frontend/src/data/mockData.ts:49-121 | the statuses in order are new, reviewed, shortlisted, rejected, new |
| MockData.FixtureMissingId | frontend/src/services/applications.ts:95-98 | an absent id fails both the lookup and the status change with "Application not found" |
| MockData.FixtureShortlistBob | frontend/src/services/applications.ts:111-120 | shortlisting record "2" without notes returns it shortlisted with its notes kept and the clock time, while a later lookup still sees it reviewed |
| MockDataQueries.FixtureResponseIsUnfilteredQuery | frontend/src/data/mockData.ts:123-129 | the canned list response is exactly what an unfiltered query returns: total 5 and ceil(5/10) = 1 page |
| MockDataQueries.FilterFixture | frontend/src/services/applications.ts:57-75 | filtering the fixture keeps, in order, exactly the records that pass |
| MockDataQueries.FixtureFilterReviewed | frontend/src/services/applications.ts:69-71 | filtering the fixture by "reviewed" lists record "2" alone |
| MockDataQueries.FixtureMatchesAlice | frontend/src/services/applications.ts:59-66 | record "1" is the only fixture record the search "alice" matches |
| MockDataQueries.FixtureSearchAlice | frontend/src/services/applications.ts:59-66 | searching the fixture for "alice" lists record "1" alone |
| MockDataQueries.FixtureResumeUrls | frontend/src/data/mockData.ts:49-121 | every fixture record's resume URL is "/files/" followed by its file name |
| MockDataQueries.FixtureMatchesUploadStub | frontend/src/services/applications.ts:33-36 | uploading a fixture record's file through the stub reproduces that record's resume URL and name |

## Left out

- `formatFileSize` (frontend/src/lib/fileUtils.ts:26-34) is not modelled. It works in floating point with `Math.log`, `toFixed` and `parseFloat`.
- `createFileDownloadUrl` and `downloadFile` are not modelled. They are browser DOM and Blob URL side effects.
- The remote branches of every service operation are not modelled: HTTP calls, multipart upload and the environment switch. Neither are `mockApiDelay`, `console.log` or the asynchrony, since the mock results do not depend on them.
- `submitApplication`, `deleteApplication`, `downloadResume` and `exportApplications` return canned values or nothing, so there is no logic to state.
- The `email()` and `url()` checks of the schema library are the uninterpreted parameters `isEmail` and `isUrl`.
- The `instanceof File` test of the file schema is not modelled: every value in the model is a file.
- Schema issue messages are modelled as the library reports them. The library's own default messages for wrong types are not modelled.
- `isAuthenticated` and `isAdmin` read client storage in code that is not part of this model. They are inputs. The router location is a string.
- The pages, `App.tsx`, `FileUpload.tsx` and `constants.ts` are not modelled. They are UI composition, state hooks and configuration, and the only decision in `FileUpload.tsx` delegates to `validateFile`.
- JsString.LowerChar: lower-cases ASCII letters only. The full Unicode case mapping of `toLowerCase` is not modelled.
- JsString.ToLowerCase: strings are sequences of Unicode scalar values (`char`), not of UTF-16 code units as in JavaScript, so a character outside the Basic Multilingual Plane counts once here and twice in the source.
- Validation.ApplicationFormIssues: the minimum name length (2) counts Unicode scalar values, not UTF-16 units. A name made of text outside the Basic Multilingual Plane is shorter in the model than in the source, so a one-character name such as "\U{1D49C}" is rejected here but accepted by the source. The position's bound of 1 is unaffected.
- Validation.AdminLoginIssues: the minimum password length (6) counts Unicode scalar values, not UTF-16 units. A password of three characters outside the Basic Multilingual Plane is rejected here but accepted by the source.
- ApplicationsService.OrDefault: `page` and `limit` are integers. Fractional values and NaN are not modelled, so only an absent value and 0 count as falsy.
- ApplicationsService.CeilDiv: computes the ceiling of an exact rational quotient. Floating-point rounding of `n / d` is not modelled.
- ApplicationsService.UpdateApplicationStatus: the clock reading is an arbitrary string. ISO-8601 formatting and monotonicity of timestamps are not modelled.
- FileUtils.GetFileExtension: promises a dot-free extension only for names of at most 2^32 characters, which every string a JavaScript engine can allocate satisfies. Beyond that the `>>> 0` wrap-around is not characterised.
- FileUtils.ExtensionWithoutInnerDot: assumes the name is at most 2^32 characters long, which every string a JavaScript engine can allocate satisfies. Beyond that the `>>> 0` wrap-around would give other results.
- FileUtils.ExtensionAfterLastDot: assumes the same 2^32 bound on the name's length.
