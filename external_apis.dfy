/**
 * The provider adapters with the HTTP call taken out: each receives the configured URL
 * and the reply the request produced, checks the reply's shape and returns the raw job
 * records, or an empty list on any failure (a missing URL, a failed request, a reply of
 * the wrong shape). The record shapes follow the provider interfaces; a nested object
 * that may be absent from the JSON is an Option, so that reading through it can fail.
 */
module ExternalApis {
  import opened Wrappers

  // ---- first provider: { metadata, jobs: [...] } ----

  datatype Api1Details = Api1Details(location: string, jobType: string, salaryRange: string)
  datatype Api1Company = Api1Company(name: string, industry: string)

  /** `jobId` "" stands for a missing or empty identifier; `skills` None for a value that is not an array. */
  datatype Api1JobOffer = Api1JobOffer(
    jobId: string,
    title: string,
    details: Option<Api1Details>,
    company: Option<Api1Company>,
    skills: Option<seq<string>>,
    postedDate: string)

  /** What the `jobs` property of the reply body holds. */
  datatype JobsField = JobsMissing | JobsNotArray | JobsArray(items: seq<Api1JobOffer>)

  datatype Api1Response = Api1Response(jobs: JobsField)

  /** The outcome of the outbound GET: a transport or parse failure, or a body (possibly null). */
  datatype HttpReply<T> = RequestFailed | Received(data: Option<T>)

  /** A configured URL is present and non-empty. */
  predicate Configured(apiUrl: Option<string>) {
    apiUrl.Some? && apiUrl.value != ""
  }

  /** `fetchFromApi1`: the reply's `jobs` when it is an array, otherwise nothing. */
  function FetchFromApi1(apiUrl: Option<string>, reply: HttpReply<Api1Response>): (jobs: seq<Api1JobOffer>)
    ensures !Configured(apiUrl) ==> jobs == []
    ensures reply.RequestFailed? || reply.data.None? ==> jobs == []
    ensures Configured(apiUrl) && reply.Received? && reply.data.Some? && reply.data.value.jobs.JobsArray?
            ==> jobs == reply.data.value.jobs.items
    ensures reply.Received? && reply.data.Some? && !reply.data.value.jobs.JobsArray? ==> jobs == []
  {
    if !Configured(apiUrl) then []
    else match reply
      case Received(Some(Api1Response(JobsArray(items)))) => items
      case _ => []
  }

  // ---- second provider: { status, data: { jobsList: { <jobId>: {...} } } } ----

  datatype Api2Location = Api2Location(city: string, state: string, remote: bool)
  datatype Api2Compensation = Api2Compensation(min: int, max: int, currency: string)
  datatype Api2Employer = Api2Employer(companyName: string, website: string)
  datatype Api2Requirements = Api2Requirements(experience: int, technologies: Option<seq<string>>)

  datatype Api2JobOffer = Api2JobOffer(
    position: string,
    location: Option<Api2Location>,
    compensation: Option<Api2Compensation>,
    employer: Option<Api2Employer>,
    requirements: Option<Api2Requirements>,
    datePosted: string)

  /** A job of the map with its key injected as `jobId`. */
  datatype KeyedApi2JobOffer = KeyedApi2JobOffer(jobId: string, job: Api2JobOffer)

  /** The JSON object `jobsList` as its `Object.entries`, in enumeration order. */
  type JobsList = seq<(string, Api2JobOffer)>

  /** Keys of a JSON object are distinct. */
  predicate KeysDistinct(entries: JobsList) {
    forall i, j :: 0 <= i < j < |entries| ==> entries[i].0 != entries[j].0
  }

  datatype Api2Data = Api2Data(jobsList: Option<JobsList>)
  datatype Api2Response = Api2Response(status: string, data: Option<Api2Data>)

  /** `Object.entries(jobsList).map(([jobId, job]) => ({ ...job, jobId }))`. */
  function FlattenJobsList(entries: JobsList): (offers: seq<KeyedApi2JobOffer>)
    ensures |offers| == |entries|
    ensures forall k :: 0 <= k < |entries| ==> offers[k].jobId == entries[k].0 && offers[k].job == entries[k].1
    ensures KeysDistinct(entries) ==> forall i, j :: 0 <= i < j < |offers| ==> offers[i].jobId != offers[j].jobId
  {
    if entries == [] then []
    else [KeyedApi2JobOffer(entries[0].0, entries[0].1)] + FlattenJobsList(entries[1..])
  }

  /** Reading the keys back out of the flattened list. */
  function EntriesOf(offers: seq<KeyedApi2JobOffer>): (entries: JobsList)
    ensures |entries| == |offers|
  {
    if offers == [] then [] else [(offers[0].jobId, offers[0].job)] + EntriesOf(offers[1..])
  }

  /** Flattening loses nothing: the key/value pairs can be recovered exactly. */
  lemma {:induction false} FlattenRoundTrip(entries: JobsList)
    ensures EntriesOf(FlattenJobsList(entries)) == entries
  {
    if entries != [] {
      FlattenRoundTrip(entries[1..]);
    }
  }

  /** The success test of `fetchFromApi2`. */
  predicate Api2Accepted(reply: HttpReply<Api2Response>) {
    && reply.Received? && reply.data.Some?
    && reply.data.value.status == "success"
    && reply.data.value.data.Some? && reply.data.value.data.value.jobsList.Some?
  }

  /** `fetchFromApi2`: the flattened `jobsList` of a successful reply, otherwise nothing. */
  function FetchFromApi2(apiUrl: Option<string>, reply: HttpReply<Api2Response>): (offers: seq<KeyedApi2JobOffer>)
    ensures !Configured(apiUrl) || !Api2Accepted(reply) ==> offers == []
    ensures Configured(apiUrl) && Api2Accepted(reply)
            ==> offers == FlattenJobsList(reply.data.value.data.value.jobsList.value)
    ensures offers != [] ==> Api2Accepted(reply)
  {
    if Configured(apiUrl) && Api2Accepted(reply) then
      FlattenJobsList(reply.data.value.data.value.jobsList.value)
    else []
  }
}
