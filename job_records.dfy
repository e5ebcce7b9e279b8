/**
 * Wire records (the API's snake_case fields) and the view records the page
 * keeps (camelCase), with the field-by-field mapping between them.
 */
module JobRecords {

  /** A JSON number as the API sends it; the page only copies it. */
  type JsonNumber = real

  /** One entry of the `jobs` array of a jobs response. */
  datatype RawJob = RawJob(
    company_logo_url: string,
    id: string,
    employment_type: string,
    job_description: string,
    location: string,
    package_per_annum: string,
    rating: JsonNumber,
    title: string)

  /** One entry of the page's job list. */
  datatype JobSummary = JobSummary(
    companyLogoUrl: string,
    id: string,
    employmentType: string,
    jobDescription: string,
    location: string,
    packagePerAnnum: string,
    rating: JsonNumber,
    title: string)

  /** The body of a jobs response. */
  datatype JobsResponse = JobsResponse(jobs: seq<RawJob>)

  /** The nested `profile_details` object of a profile response. */
  datatype RawProfile = RawProfile(profile_image_url: string, name: string, short_bio: string)

  /** The body of a profile response. */
  datatype ProfileResponse = ProfileResponse(profile_details: RawProfile)

  /** The page's profile: the empty object before the first successful fetch, then the mapped fields. */
  datatype ProfileDetails = Unset | Details(profileImageUrl: string, name: string, shortBio: string)

  /** Each camelCase field of `j` holds the corresponding snake_case field of `w`. */
  ghost predicate Corresponds(w: RawJob, j: JobSummary)
  {
    && j.companyLogoUrl == w.company_logo_url
    && j.id == w.id
    && j.employmentType == w.employment_type
    && j.jobDescription == w.job_description
    && j.location == w.location
    && j.packagePerAnnum == w.package_per_annum
    && j.rating == w.rating
    && j.title == w.title
  }

  /** The record literal inside the `map` of getModifiedJobsListData: each field renamed, none dropped. */
  function ToJobSummary(w: RawJob): (j: JobSummary)
    ensures Corresponds(w, j)
  {
    JobSummary(
      w.company_logo_url, w.id, w.employment_type, w.job_description,
      w.location, w.package_per_annum, w.rating, w.title)
  }

  /** The wire record a view record was made from. */
  function ToRawJob(j: JobSummary): RawJob
  {
    RawJob(
      j.companyLogoUrl, j.id, j.employmentType, j.jobDescription,
      j.location, j.packagePerAnnum, j.rating, j.title)
  }

  /** The mapped record is the only view record corresponding to a wire record. */
  lemma ToJobSummaryCorresponds(w: RawJob, j: JobSummary)
    ensures Corresponds(w, j) <==> j == ToJobSummary(w)
  {
  }

  /** getModifiedJobsListData: maps every entry, keeping length and order. */
  function ModifiedJobsList(jobs: seq<RawJob>): (r: seq<JobSummary>)
    ensures |r| == |jobs|
    ensures forall i :: 0 <= i < |jobs| ==> Corresponds(jobs[i], r[i])
  {
    if jobs == [] then [] else [ToJobSummary(jobs[0])] + ModifiedJobsList(jobs[1..])
  }

  /** The wire list a job list was made from. */
  function ToRawJobs(list: seq<JobSummary>): (r: seq<RawJob>)
  {
    if list == [] then [] else [ToRawJob(list[0])] + ToRawJobs(list[1..])
  }

  /** Mapping loses nothing: the wire list is recovered from the job list. */
  lemma {:induction false} RawJobsRoundTrip(jobs: seq<RawJob>)
    ensures ToRawJobs(ModifiedJobsList(jobs)) == jobs
  {
    if jobs != [] {
      RawJobsRoundTrip(jobs[1..]);
      assert ModifiedJobsList(jobs)[1..] == ModifiedJobsList(jobs[1..]);
    }
  }

  /** Every job list is the mapping of some wire list, so the mapping is onto. */
  lemma {:induction false} JobSummariesRoundTrip(list: seq<JobSummary>)
    ensures ModifiedJobsList(ToRawJobs(list)) == list
  {
    if list != [] {
      JobSummariesRoundTrip(list[1..]);
      assert ToRawJobs(list)[1..] == ToRawJobs(list[1..]);
    }
  }

  /** Mapping is entry by entry: mapping a concatenation maps each part. */
  lemma {:induction false} ModifiedJobsListAppend(a: seq<RawJob>, b: seq<RawJob>)
    ensures ModifiedJobsList(a + b) == ModifiedJobsList(a) + ModifiedJobsList(b)
  {
    if a != [] {
      assert (a + b)[1..] == a[1..] + b;
      ModifiedJobsListAppend(a[1..], b);
    }
  }

  /** The profile mapping of getProfileDetails: reads the nested object, renames each field. */
  function ProfileDetailsOf(data: ProfileResponse): (p: ProfileDetails)
    ensures p != Unset
    ensures p.profileImageUrl == data.profile_details.profile_image_url
    ensures p.name == data.profile_details.name
    ensures p.shortBio == data.profile_details.short_bio
  {
    var raw := data.profile_details;
    Details(raw.profile_image_url, raw.name, raw.short_bio)
  }

  /** The response a fetched profile came from. */
  function ProfileResponseOf(p: ProfileDetails): ProfileResponse
    requires p.Details?
  {
    ProfileResponse(RawProfile(p.profileImageUrl, p.name, p.shortBio))
  }

  /** The profile mapping loses nothing and reaches every fetched profile. */
  lemma ProfileRoundTrip(data: ProfileResponse, p: ProfileDetails)
    ensures ProfileResponseOf(ProfileDetailsOf(data)) == data
    ensures p.Details? ==> ProfileDetailsOf(ProfileResponseOf(p)) == p
  {
  }
}
