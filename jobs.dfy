/**
 * The Jobs component as an object: its fields are the component state and
 * its methods the handlers that update it. Each fetch is split into the
 * step that runs before the request is sent and the step that runs when
 * its response settles; the response arrives as an `ok` flag and an
 * already parsed body, and the cookie as a parameter.
 */
module JobsComponent {
  import opened Optional
  import opened ApiStatuses
  import opened JobRecords
  import opened JobsRequests
  import opened JobsPage

  class Jobs {
    var searchInput: string
    var employmentType: string
    var minimumPackage: string
    var jobsList: seq<JobSummary>
    var profileDetails: ProfileDetails
    var profileApiStatus: ApiStatus
    var jobsApiStatus: ApiStatus
    var otherInputs: map<string, string>

    /** The fields as one state value. */
    function State(): PageState
      reads this
    {
      PageState(Filters(searchInput, employmentType, minimumPackage), jobsList, profileDetails,
                profileApiStatus, jobsApiStatus, otherInputs)
    }

    ghost predicate Valid()
      reads this
    {
      Consistent(State())
    }

    /** The class field initialiser: empty filters, no jobs, no profile, both statuses Initial. */
    constructor ()
      ensures Valid() && State() == InitialPageState
    {
      searchInput, employmentType, minimumPackage := "", "", "";
      jobsList := [];
      profileDetails := Unset;
      profileApiStatus, jobsApiStatus := Initial, Initial;
      otherInputs := map[];
    }

    /** componentDidMount: starts the profile fetch, then the jobs fetch. */
    method ComponentDidMount(jwtToken: Option<string>) returns (profileRequest: Request, jobsRequest: Request)
      requires Valid()
      modifies this
      ensures Valid()
      ensures State() == StartJobs(StartProfile(old(State())))
      ensures profileRequest == ProfileRequest(jwtToken)
      ensures jobsRequest == JobsRequest(old(State()).filters, jwtToken)
    {
      profileRequest := StartProfileFetch(jwtToken);
      jobsRequest := StartJobsFetch(jwtToken);
    }

    /** getProfileDetails up to the request: the profile status becomes InProgress. */
    method StartProfileFetch(jwtToken: Option<string>) returns (request: Request)
      requires Valid()
      modifies this
      ensures Valid()
      ensures State() == StartProfile(old(State()))
      ensures request == ProfileRequest(jwtToken)
    {
      profileApiStatus := InProgress;
      request := Request(ProfileApiUrl, "GET", AuthorizationHeader(jwtToken));
    }

    /** getProfileDetails once its response has settled. */
    method CompleteProfileFetch(ok: bool, data: ProfileResponse)
      requires Valid()
      modifies this
      ensures Valid()
      ensures State() == CompleteProfile(old(State()), ok, data)
    {
      if ok {
        var updatedData := ProfileDetailsOf(data);
        profileDetails, profileApiStatus := updatedData, Success;
      } else {
        profileApiStatus := Failure;
      }
    }

    /**
     * getJobsList up to the request: the jobs status becomes InProgress and
     * the request is built from the filters as they are now.
     */
    method StartJobsFetch(jwtToken: Option<string>) returns (request: Request)
      requires Valid()
      modifies this
      ensures Valid()
      ensures State() == StartJobs(old(State()))
      ensures request == JobsRequest(old(State()).filters, jwtToken)
    {
      jobsApiStatus := InProgress;
      var snapshot := Filters(searchInput, employmentType, minimumPackage);
      request := Request(JobsUrl(snapshot), "GET", AuthorizationHeader(jwtToken));
    }

    /** getJobsList once its response has settled. */
    method CompleteJobsFetch(ok: bool, data: JobsResponse)
      requires Valid()
      modifies this
      ensures Valid()
      ensures State() == CompleteJobs(old(State()), ok, data)
    {
      if ok {
        var updatedData := ModifiedJobsList(data.jobs);
        jobsList, jobsApiStatus := updatedData, Success;
      } else {
        jobsApiStatus := Failure;
      }
    }

    /** onChangeInput: stores the input's value under the state key its name gives. */
    method OnChangeInput(name: string, value: string)
      requires Valid()
      requires name !in FetchKeys
      modifies this
      ensures Valid()
      ensures State() == ChangeInput(old(State()), name, value)
    {
      if name == "searchInput" {
        searchInput := value;
      } else if name == "employmentType" {
        employmentType := value;
      } else if name == "minimumPackage" {
        minimumPackage := value;
      } else {
        otherInputs := otherInputs[name := value];
      }
    }
  }
}
