/**
 * The component state of the job-list page as a value, and each handler as
 * a transition on it: a fetch is a start step and a separate settle step.
 * The class in jobs.dfy is specified by these functions.
 */
module JobsPage {
  import opened Optional
  import opened ApiStatuses
  import opened JobRecords
  import opened JobsRequests
  import opened JobsViews

  /** The component's `state` object; `otherInputs` holds keys that inputs with other names add to it. */
  datatype PageState = PageState(
    filters: Filters,
    jobsList: seq<JobSummary>,
    profileDetails: ProfileDetails,
    profileApiStatus: ApiStatus,
    jobsApiStatus: ApiStatus,
    otherInputs: map<string, string>)

  /** The state keys that hold filter strings. */
  const FilterKeys: set<string> := {"searchInput", "employmentType", "minimumPackage"}

  /** The state keys that the fetches own. */
  const FetchKeys: set<string> := {"jobsList", "profileDetails", "profileApiStatus", "jobsApiStatus"}

  /** The state the component starts in. */
  const InitialPageState := PageState(InitialFilters, [], Unset, Initial, Initial, map[])

  /**
   * What every reachable state satisfies: a fetcher whose status is still
   * Initial holds no data yet, and keys added by inputs never shadow a
   * state key.
   */
  ghost predicate Consistent(s: PageState)
  {
    && (s.jobsApiStatus == Initial ==> s.jobsList == [])
    && (s.profileApiStatus == Initial ==> s.profileDetails == Unset)
    && s.otherInputs.Keys !! (FilterKeys + FetchKeys)
  }

  /** The string a state key holds, if it holds one. */
  function Lookup(s: PageState, key: string): Option<string>
  {
    if key == "searchInput" then Some(s.filters.searchInput)
    else if key == "employmentType" then Some(s.filters.employmentType)
    else if key == "minimumPackage" then Some(s.filters.minimumPackage)
    else if key in FetchKeys then None
    else if key in s.otherInputs then Some(s.otherInputs[key])
    else None
  }

  /** `t` differs from `s` at most in the jobs status and the job list. */
  ghost predicate OnlyJobsChanged(s: PageState, t: PageState)
  {
    && t.filters == s.filters
    && t.profileDetails == s.profileDetails
    && t.profileApiStatus == s.profileApiStatus
    && t.otherInputs == s.otherInputs
  }

  /** `t` differs from `s` at most in the profile status and the profile. */
  ghost predicate OnlyProfileChanged(s: PageState, t: PageState)
  {
    && t.filters == s.filters
    && t.jobsList == s.jobsList
    && t.jobsApiStatus == s.jobsApiStatus
    && t.otherInputs == s.otherInputs
  }

  /** `t` holds the same fetch fields as `s`. */
  ghost predicate FetchFieldsKept(s: PageState, t: PageState)
  {
    && t.jobsList == s.jobsList
    && t.profileDetails == s.profileDetails
    && t.profileApiStatus == s.profileApiStatus
    && t.jobsApiStatus == s.jobsApiStatus
  }

  /** The view of the job-list region in a state. */
  function JobsRegion(s: PageState): JobsView
  {
    ViewFor(s.jobsApiStatus, s.jobsList)
  }

  /** The first setState of getJobsList: only the jobs status moves, to InProgress, and the loader shows. */
  function StartJobs(s: PageState): (t: PageState)
    ensures OnlyJobsChanged(s, t) && t.jobsList == s.jobsList
    ensures t.jobsApiStatus == InProgress && JobsRegion(t) == LoadingView
    ensures Consistent(s) ==> Consistent(t)
  {
    s.(jobsApiStatus := InProgress)
  }

  /**
   * The settle step of getJobsList. On an OK response the list is replaced
   * by the mapped entries, in order, and the status is Success; otherwise
   * only the status moves, to Failure, and the failure view hides the old
   * list. Either way the status leaves InProgress.
   */
  function CompleteJobs(s: PageState, ok: bool, data: JobsResponse): (t: PageState)
    ensures OnlyJobsChanged(s, t)
    ensures ok ==> t.jobsApiStatus == Success && |t.jobsList| == |data.jobs|
    ensures ok ==> forall i :: 0 <= i < |data.jobs| ==> Corresponds(data.jobs[i], t.jobsList[i])
    ensures !ok ==> t.jobsApiStatus == Failure && t.jobsList == s.jobsList
    ensures JobsRegion(t) == if !ok then FailureView
                             else if data.jobs == [] then NoJobsView
                             else JobItemsList(t.jobsList)
    ensures Consistent(s) ==> Consistent(t)
  {
    if ok then s.(jobsList := ModifiedJobsList(data.jobs), jobsApiStatus := Success)
    else s.(jobsApiStatus := Failure)
  }

  /** The first setState of getProfileDetails: only the profile status moves, to InProgress. */
  function StartProfile(s: PageState): (t: PageState)
    ensures OnlyProfileChanged(s, t) && t.profileDetails == s.profileDetails
    ensures t.profileApiStatus == InProgress
    ensures Consistent(s) ==> Consistent(t)
  {
    s.(profileApiStatus := InProgress)
  }

  /**
   * The settle step of getProfileDetails: on an OK response the profile is
   * replaced by the mapped fields and the status is Success; otherwise only
   * the status moves, to Failure.
   */
  function CompleteProfile(s: PageState, ok: bool, data: ProfileResponse): (t: PageState)
    ensures OnlyProfileChanged(s, t)
    ensures ok ==> t.profileApiStatus == Success && t.profileDetails.Details?
    ensures ok ==> ProfileResponseOf(t.profileDetails) == data
    ensures !ok ==> t.profileApiStatus == Failure && t.profileDetails == s.profileDetails
    ensures Consistent(s) ==> Consistent(t)
  {
    if ok then s.(profileDetails := ProfileDetailsOf(data), profileApiStatus := Success)
    else s.(profileApiStatus := Failure)
  }

  /**
   * onChangeInput: the key named by the input now holds its value, every
   * other key holds what it held, and no fetch field changes (in particular
   * no fetch starts).
   */
  function ChangeInput(s: PageState, name: string, value: string): (t: PageState)
    requires name !in FetchKeys
    ensures Lookup(t, name) == Some(value)
    ensures forall k :: k != name ==> Lookup(t, k) == Lookup(s, k)
    ensures FetchFieldsKept(s, t)
    ensures Consistent(s) ==> Consistent(t)
  {
    if name == "searchInput" then s.(filters := s.filters.(searchInput := value))
    else if name == "employmentType" then s.(filters := s.filters.(employmentType := value))
    else if name == "minimumPackage" then s.(filters := s.filters.(minimumPackage := value))
    else s.(otherInputs := s.otherInputs[name := value])
  }

  /** The initial state: nothing fetched, nothing shown, and a first request that constrains nothing. */
  lemma InitialStateIsEmpty()
    ensures Consistent(InitialPageState)
    ensures forall k :: k in FilterKeys ==> Lookup(InitialPageState, k) == Some("")
    ensures JobsRegion(InitialPageState) == NoView
    ensures QueryParams(JobsUrl(InitialPageState.filters))
         == [("employment_type", ""), ("minimum_package", ""), ("search", "")]
  {
    JobsUrlQuery(InitialFilters);
  }

  /**
   * The state update of a jobs fetch is idempotent: a second fetch that
   * settles with the same outcome and body as the first leaves the state as
   * the first left it. (Which response a request gets is not modelled, so
   * the filters play no part here.)
   */
  lemma RefetchIsIdempotent(s: PageState, ok: bool, data: JobsResponse)
    ensures var t := CompleteJobs(StartJobs(s), ok, data);
            CompleteJobs(StartJobs(t), ok, data) == t
  {
  }

  // The page as a sequence of events.

  datatype Event =
    | StartJobsFetch
    | JobsSettled(jobsOk: bool, jobsData: JobsResponse)
    | StartProfileFetch
    | ProfileSettled(profileOk: bool, profileData: ProfileResponse)
    | InputChanged(name: string, value: string)

  predicate IsProfileEvent(e: Event)
  {
    e.StartProfileFetch? || e.ProfileSettled?
  }

  predicate IsJobsEvent(e: Event)
  {
    e.StartJobsFetch? || e.JobsSettled?
  }

  /** An input event names no fetch key. */
  predicate Allowed(e: Event)
  {
    e.InputChanged? ==> e.name !in FetchKeys
  }

  /**
   * One handler run as an event: a profile event touches only the profile
   * part, a jobs event only the jobs part, an input event no fetch field,
   * and every event keeps the state consistent.
   */
  function Step(s: PageState, e: Event): (t: PageState)
    requires Allowed(e)
    ensures IsProfileEvent(e) ==> OnlyProfileChanged(s, t)
    ensures IsJobsEvent(e) ==> OnlyJobsChanged(s, t)
    ensures e.InputChanged? ==> FetchFieldsKept(s, t)
    ensures Consistent(s) ==> Consistent(t)
  {
    match e
    case StartJobsFetch => StartJobs(s)
    case JobsSettled(ok, data) => CompleteJobs(s, ok, data)
    case StartProfileFetch => StartProfile(s)
    case ProfileSettled(ok, data) => CompleteProfile(s, ok, data)
    case InputChanged(name, value) => ChangeInput(s, name, value)
  }

  ghost predicate AllAllowed(evs: seq<Event>)
  {
    forall i :: 0 <= i < |evs| ==> Allowed(evs[i])
  }

  /** The state after the events, in order. */
  function Run(s: PageState, evs: seq<Event>): PageState
    requires AllAllowed(evs)
    decreases |evs|
  {
    if evs == [] then s else Run(Step(s, evs[0]), evs[1..])
  }

  function WithoutProfileEvents(evs: seq<Event>): (r: seq<Event>)
    ensures forall i :: 0 <= i < |r| ==> r[i] in evs && !IsProfileEvent(r[i])
  {
    if evs == [] then []
    else if IsProfileEvent(evs[0]) then WithoutProfileEvents(evs[1..])
    else [evs[0]] + WithoutProfileEvents(evs[1..])
  }

  function ProfileEventsOnly(evs: seq<Event>): (r: seq<Event>)
    ensures forall i :: 0 <= i < |r| ==> r[i] in evs && IsProfileEvent(r[i])
  {
    if evs == [] then []
    else if IsProfileEvent(evs[0]) then [evs[0]] + ProfileEventsOnly(evs[1..])
    else ProfileEventsOnly(evs[1..])
  }

  /** A state with the profile part forgotten. */
  function WithoutProfile(s: PageState): PageState
  {
    s.(profileDetails := Unset, profileApiStatus := Initial)
  }

  lemma {:induction false} WithoutProfileRun(s1: PageState, s2: PageState, evs: seq<Event>)
    requires AllAllowed(evs)
    requires WithoutProfile(s1) == WithoutProfile(s2)
    ensures AllAllowed(WithoutProfileEvents(evs))
    ensures WithoutProfile(Run(s1, evs)) == WithoutProfile(Run(s2, WithoutProfileEvents(evs)))
    decreases |evs|
  {
    if evs != [] {
      var e := evs[0];
      if IsProfileEvent(e) {
        WithoutProfileRun(Step(s1, e), s2, evs[1..]);
      } else {
        assert WithoutProfile(Step(s1, e)) == WithoutProfile(Step(s2, e));
        WithoutProfileRun(Step(s1, e), Step(s2, e), evs[1..]);
      }
    }
  }

  /**
   * The profile fetch never affects the rest of the page: dropping every
   * profile event leaves the filters, the job list, the jobs status and the
   * input keys as they were.
   */
  lemma JobsIndependentOfProfile(s: PageState, evs: seq<Event>)
    requires AllAllowed(evs)
    ensures AllAllowed(WithoutProfileEvents(evs))
    ensures WithoutProfile(Run(s, evs)) == WithoutProfile(Run(s, WithoutProfileEvents(evs)))
  {
    WithoutProfileRun(s, s, evs);
  }

  lemma {:induction false} ProfileOnlyRun(s1: PageState, s2: PageState, evs: seq<Event>)
    requires AllAllowed(evs)
    requires s1.profileDetails == s2.profileDetails && s1.profileApiStatus == s2.profileApiStatus
    ensures AllAllowed(ProfileEventsOnly(evs))
    ensures Run(s1, evs).profileDetails == Run(s2, ProfileEventsOnly(evs)).profileDetails
    ensures Run(s1, evs).profileApiStatus == Run(s2, ProfileEventsOnly(evs)).profileApiStatus
    decreases |evs|
  {
    if evs != [] {
      var e := evs[0];
      if IsProfileEvent(e) {
        ProfileOnlyRun(Step(s1, e), Step(s2, e), evs[1..]);
      } else {
        ProfileOnlyRun(Step(s1, e), s2, evs[1..]);
      }
    }
  }

  /** The profile region depends on the profile events alone: jobs fetches and inputs never touch it. */
  lemma ProfileIndependentOfJobs(s: PageState, evs: seq<Event>)
    requires AllAllowed(evs)
    ensures AllAllowed(ProfileEventsOnly(evs))
    ensures Run(s, evs).profileDetails == Run(s, ProfileEventsOnly(evs)).profileDetails
    ensures Run(s, evs).profileApiStatus == Run(s, ProfileEventsOnly(evs)).profileApiStatus
  {
    ProfileOnlyRun(s, s, evs);
  }

  /** Running two event sequences one after the other is running their concatenation. */
  lemma {:induction false} RunAppend(s: PageState, a: seq<Event>, b: seq<Event>)
    requires AllAllowed(a) && AllAllowed(b)
    ensures AllAllowed(a + b)
    ensures Run(s, a + b) == Run(Run(s, a), b)
    decreases |a|
  {
    if a == [] {
      assert a + b == b;
    } else {
      assert (a + b)[1..] == a[1..] + b;
      RunAppend(Step(s, a[0]), a[1..], b);
    }
  }

  /** Events other than jobs events leave the job list and the jobs status alone. */
  lemma {:induction false} NonJobsEventsKeepJobs(s: PageState, evs: seq<Event>)
    requires AllAllowed(evs)
    requires forall i :: 0 <= i < |evs| ==> !IsJobsEvent(evs[i])
    ensures Run(s, evs).jobsList == s.jobsList && Run(s, evs).jobsApiStatus == s.jobsApiStatus
    decreases |evs|
  {
    if evs != [] {
      NonJobsEventsKeepJobs(Step(s, evs[0]), evs[1..]);
    }
  }

  /**
   * A jobs fetch that never settles (its `fetch` rejects or its body cannot
   * be read, so the code after the `await` never runs) leaves the loader up
   * for good: profile fetches and input changes after the start do not
   * touch the job-list region.
   */
  lemma UnsettledFetchShowsLoader(s: PageState, after: seq<Event>)
    requires AllAllowed(after)
    requires forall i :: 0 <= i < |after| ==> !IsJobsEvent(after[i])
    ensures AllAllowed([StartJobsFetch] + after)
    ensures Run(s, [StartJobsFetch] + after).jobsApiStatus == InProgress
    ensures JobsRegion(Run(s, [StartJobsFetch] + after)) == LoadingView
  {
    var evs := [StartJobsFetch] + after;
    assert evs[0] == StartJobsFetch && evs[1..] == after;
    NonJobsEventsKeepJobs(StartJobs(s), after);
  }

  /**
   * The response that settles last decides the job-list region, whichever
   * request was started last: after it, only profile fetches and inputs
   * follow, and the region is its failure, no-jobs or list view.
   */
  lemma LastSettledResponseWins(s: PageState, before: seq<Event>, ok: bool, data: JobsResponse, after: seq<Event>)
    requires AllAllowed(before) && AllAllowed(after)
    requires forall i :: 0 <= i < |after| ==> !IsJobsEvent(after[i])
    ensures AllAllowed(before + [JobsSettled(ok, data)] + after)
    ensures JobsRegion(Run(s, before + [JobsSettled(ok, data)] + after))
         == if !ok then FailureView
            else if data.jobs == [] then NoJobsView
            else JobItemsList(ModifiedJobsList(data.jobs))
  {
    var settle := [JobsSettled(ok, data)];
    RunAppend(s, before, settle);
    RunAppend(s, before + settle, after);
    var mid := Run(s, before + settle);
    assert mid == CompleteJobs(Run(s, before), ok, data);
    NonJobsEventsKeepJobs(mid, after);
  }

  /** Every reachable state is consistent. */
  lemma {:induction false} RunKeepsConsistent(s: PageState, evs: seq<Event>)
    requires AllAllowed(evs) && Consistent(s)
    ensures Consistent(Run(s, evs))
    decreases |evs|
  {
    if evs != [] {
      RunKeepsConsistent(Step(s, evs[0]), evs[1..]);
    }
  }
}
