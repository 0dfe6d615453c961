/** The in-memory branch of the applications service: list with filters and
    paging metadata, lookup by id, a status change that returns an updated
    copy, and the resume upload stub. The stored list is the parameter
    `store`; the clock reading is the parameter `now`. */
module ApplicationsService {
  import opened Wrappers
  import opened ApplicationTypes
  import opened JsString
  import opened JsArray

  const DEFAULT_PAGE := 1
  const DEFAULT_LIMIT := 10
  const NOT_FOUND := "Application not found"
  const FILES_PREFIX := "/files/"

  /** `x || d` on an optional number: `undefined` and 0 fall back to `d`. */
  function OrDefault(v: Option<int>, d: int): (r: int)
    ensures v.None? || v.value == 0 ==> r == d
    ensures v.Some? && v.value != 0 ==> r == v.value
  {
    if v.None? || v.value == 0 then d else v.value
  }

  /** `Math.ceil(n / d)`: the least integer `r` with `r * d >= n` for a
      positive divisor, and with `r * d <= n` for a negative one. */
  function CeilDiv(n: nat, d: int): (r: int)
    requires d != 0
    ensures 0 < d ==> (r - 1) * d < n <= r * d
    ensures d < 0 ==> r * d <= n < (r - 1) * d
  {
    if 0 < d then
      var r := (n + d - 1) / d;
      assert r * d <= n + d - 1 < r * d + d;
      r
    else
      var q := n / -d;
      assert q * -d <= n < q * -d - d;
      -q
  }

  /** A search text is applied only when it is present and non-empty. */
  predicate SearchActive(p: GetApplicationsParams) {
    p.search.Some? && p.search.value != ""
  }

  /** A position filter is applied only when it is present and non-empty. */
  predicate PositionActive(p: GetApplicationsParams) {
    p.jobPosition.Some? && p.jobPosition.value != ""
  }

  /** Case-insensitive search over the name, the email and the position. */
  predicate MatchesSearch(a: Application, search: string): (b: bool)
    ensures b <==> IsSubstring(ToLowerCase(search), ToLowerCase(a.fullName))
                   || IsSubstring(ToLowerCase(search), ToLowerCase(a.email))
                   || IsSubstring(ToLowerCase(search), ToLowerCase(a.jobPosition))
  {
    var q := ToLowerCase(search);
    IncludesIsSubstring(ToLowerCase(a.fullName), q);
    IncludesIsSubstring(ToLowerCase(a.email), q);
    IncludesIsSubstring(ToLowerCase(a.jobPosition), q);
    Includes(ToLowerCase(a.fullName), q)
    || Includes(ToLowerCase(a.email), q)
    || Includes(ToLowerCase(a.jobPosition), q)
  }

  function SearchFilter(search: string): Application -> bool {
    a => MatchesSearch(a, search)
  }

  function StatusFilter(status: ApplicationStatus): Application -> bool {
    (a: Application) => a.status == status
  }

  function PositionFilter(position: string): Application -> bool {
    (a: Application) => a.jobPosition == position
  }

  /** A record passes a query when it passes every filter the query applies. */
  predicate MatchesAll(p: GetApplicationsParams, a: Application): (b: bool)
    ensures !SearchActive(p) && p.status.None? && !PositionActive(p) ==> b
    ensures b && p.status.Some? ==> a.status == p.status.value
    ensures b && PositionActive(p) ==> a.jobPosition == p.jobPosition.value
    ensures b && SearchActive(p) ==> IsSubstring(ToLowerCase(p.search.value), ToLowerCase(a.fullName))
                                     || IsSubstring(ToLowerCase(p.search.value), ToLowerCase(a.email))
                                     || IsSubstring(ToLowerCase(p.search.value), ToLowerCase(a.jobPosition))
  {
    && (SearchActive(p) ==> MatchesSearch(a, p.search.value))
    && (p.status.Some? ==> a.status == p.status.value)
    && (PositionActive(p) ==> a.jobPosition == p.jobPosition.value)
  }

  function Matcher(p: GetApplicationsParams): Application -> bool {
    a => MatchesAll(p, a)
  }

  /** The list query: the search, status and position filters in turn, the
      whole filtered list returned unsliced, and the paging metadata. */
  function GetApplications(store: seq<Application>, params: GetApplicationsParams): (r: ApplicationsResponse)
    ensures r.total == |r.applications| <= |store|
    ensures r.page == OrDefault(params.page, DEFAULT_PAGE)
    ensures r.limit == OrDefault(params.limit, DEFAULT_LIMIT) && r.limit != 0
    ensures r.totalPages == CeilDiv(r.total, r.limit)
  {
    var bySearch := if SearchActive(params) then Filter(store, SearchFilter(params.search.value)) else store;
    var byStatus := if params.status.Some? then Filter(bySearch, StatusFilter(params.status.value)) else bySearch;
    var byPosition := if PositionActive(params) then Filter(byStatus, PositionFilter(params.jobPosition.value)) else byStatus;
    var limit := OrDefault(params.limit, DEFAULT_LIMIT);
    ApplicationsResponse(byPosition, |byPosition|, OrDefault(params.page, DEFAULT_PAGE), limit, CeilDiv(|byPosition|, limit))
  }

  /** The three filters in sequence are one filter by their conjunction. */
  lemma {:induction false} GetApplicationsIsOneFilter(store: seq<Application>, params: GetApplicationsParams)
    ensures GetApplications(store, params).applications == Filter(store, Matcher(params))
  {
    var bySearch := if SearchActive(params) then Filter(store, SearchFilter(params.search.value)) else store;
    var byStatus := if params.status.Some? then Filter(bySearch, StatusFilter(params.status.value)) else bySearch;
    var byPosition := if PositionActive(params) then Filter(byStatus, PositionFilter(params.jobPosition.value)) else byStatus;
    // The conjunction of the filters applied so far, one stage at a time.
    var m1: Application -> bool := a => SearchActive(params) ==> MatchesSearch(a, params.search.value);
    var m2: Application -> bool := a => m1(a) && (params.status.Some? ==> a.status == params.status.value);
    var m3 := Matcher(params);
    if SearchActive(params) {
      FilterKeepsAll(Filter(store, SearchFilter(params.search.value)), m1);
      FilterFuse(store, SearchFilter(params.search.value), m1, m1);
    } else {
      FilterKeepsAll(store, m1);
    }
    assert bySearch == Filter(store, m1);
    if params.status.Some? {
      FilterFuse(store, m1, StatusFilter(params.status.value), m2);
    } else {
      FilterKeepsAll(Filter(store, m1), m2);
      FilterFuse(store, m1, m2, m2);
    }
    assert byStatus == Filter(store, m2);
    if PositionActive(params) {
      FilterFuse(store, m2, PositionFilter(params.jobPosition.value), m3);
    } else {
      FilterKeepsAll(Filter(store, m2), m3);
      FilterFuse(store, m2, m3, m3);
    }
  }

  /** A stored record is listed exactly when it passes every supplied filter,
      and everything listed comes from the store. */
  lemma GetApplicationsMembership(store: seq<Application>, params: GetApplicationsParams)
    ensures forall k :: 0 <= k < |store| ==>
      (store[k] in GetApplications(store, params).applications <==> MatchesAll(params, store[k]))
    ensures forall a :: a in GetApplications(store, params).applications ==> a in store && MatchesAll(params, a)
  {
    GetApplicationsIsOneFilter(store, params);
  }

  /** The list keeps the stored order: it is a subsequence of the store. */
  lemma GetApplicationsKeepsOrder(store: seq<Application>, params: GetApplicationsParams)
    ensures IsSubsequence(GetApplications(store, params).applications, store)
  {
    GetApplicationsIsOneFilter(store, params);
    FilterIsSubsequence(store, Matcher(params));
  }

  /** Without an active filter the whole store is listed, with page 1, limit
      10 and `ceil(|store| / 10)` pages. */
  lemma GetApplicationsUnfiltered(store: seq<Application>)
    ensures GetApplications(store, NO_PARAMS).applications == store
    ensures GetApplications(store, NO_PARAMS).page == 1
    ensures GetApplications(store, NO_PARAMS).limit == 10
    ensures GetApplications(store, NO_PARAMS).totalPages == (|store| + 9) / 10
  {
  }

  /** An empty search text or position is the same as none. */
  lemma EmptyFiltersImposeNothing(store: seq<Application>, params: GetApplicationsParams)
    ensures GetApplications(store, params.(search := Some(""))) == GetApplications(store, params.(search := None))
    ensures GetApplications(store, params.(jobPosition := Some(""))) == GetApplications(store, params.(jobPosition := None))
  {
  }

  /** The search text is lower-cased before matching, so its case does not
      matter. */
  lemma SearchIgnoresCase(a: Application, search: string)
    ensures MatchesSearch(a, search) == MatchesSearch(a, ToLowerCase(search))
  {
    ToLowerCaseIdempotent(search);
  }

  function IdIs(id: string): Application -> bool {
    (a: Application) => a.id == id
  }

  /** Lookup by id: the first record with that id, or the not-found error. */
  function GetApplication(store: seq<Application>, id: string): (r: Result<Application, string>)
    ensures r.Failure? <==> forall k :: 0 <= k < |store| ==> store[k].id != id
    ensures r.Failure? ==> r.error == NOT_FOUND
    ensures r.Success? ==> exists k :: (0 <= k < |store| && store[k] == r.value && r.value.id == id
                                        && forall j :: 0 <= j < k ==> store[j].id != id)
  {
    match Find(store, IdIs(id))
    case None => Failure(NOT_FOUND)
    case Some(a) => Success(a)
  }

  /** The notes after an update: the new ones when non-empty, else the old. */
  function MergeNotes(update: Option<string>, current: Option<string>): (r: Option<string>)
    ensures r == update || r == current
    ensures update.Some? && update.value != "" ==> r == update
    ensures update.None? || update.value == "" ==> r == current
  {
    if update.Some? && update.value != "" then update else current
  }

  /** A status change: a copy of the record found by `GetApplication` with the
      new status, the merged notes and the clock reading; the store itself is
      not changed. */
  function UpdateApplicationStatus(store: seq<Application>, id: string, data: UpdateApplicationStatusRequest, now: string): (r: Result<Application, string>)
    ensures r.Failure? <==> GetApplication(store, id).Failure?
    ensures r.Failure? ==> r.error == NOT_FOUND
    ensures r.Success? ==>
      var a := GetApplication(store, id).value;
      && r.value.status == data.status
      && r.value.updatedAt == now
      && (data.adminNotes.Some? && data.adminNotes.value != "" ==> r.value.adminNotes == data.adminNotes)
      && (data.adminNotes.None? || data.adminNotes.value == "" ==> r.value.adminNotes == a.adminNotes)
      && r.value.(status := a.status, adminNotes := a.adminNotes, updatedAt := a.updatedAt) == a
  {
    match Find(store, IdIs(id))
    case None => Failure(NOT_FOUND)
    case Some(a) => Success(a.(status := data.status, adminNotes := MergeNotes(data.adminNotes, a.adminNotes), updatedAt := now))
  }

  /** The upload stub: the file is said to be stored under `/files/`. */
  function UploadResume(f: File): (r: FileUploadResponse)
    ensures r.fileName == f.name
    ensures |r.url| == |FILES_PREFIX| + |f.name| && r.url[..|FILES_PREFIX|] == FILES_PREFIX
    ensures r.url[|FILES_PREFIX|..] == r.fileName
  {
    FileUploadResponse(FILES_PREFIX + f.name, f.name)
  }

  /** Files stored under the same URL have the same name. */
  lemma UploadResumeUrlDeterminesName(f: File, g: File)
    requires UploadResume(f).url == UploadResume(g).url
    ensures f.name == g.name
  {
    assert f.name == UploadResume(f).url[|FILES_PREFIX|..];
  }
}
