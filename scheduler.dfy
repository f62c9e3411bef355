/**
 * `JobOffersSchedulerService`: on each tick, fetch both providers, turn every record into
 * a draft row and store the drafts whose `externalId` is not yet present. A record
 * without a truthy `jobId` is skipped (and still counted); a record whose nested objects
 * are missing throws while being transformed, is not stored and is not counted.
 */
module Scheduler {
  import opened Wrappers
  import opened Text
  import opened Entity
  import opened Store
  import opened Salary
  import opened ExternalApis
  import opened JobOffers

  /** What `saveTransformedApi1Offer` / `saveTransformedApi2Offer` does with one record. */
  datatype Transformed =
    | Skipped                    // no jobId: logged and returned normally
    | Failed                     // a TypeError while reading a missing nested object
    | Ready(draft: OfferDraft)   // handed to `saveOffer`

  /** The salary bounds of a first-provider record: the captured thousands, or both absent. */
  function SalaryBounds(salaryRange: string): (bounds: (Option<int>, Option<int>))
    ensures bounds.0.Some? <==> ParseSalary(salaryRange).Some?
    ensures bounds.1.Some? <==> ParseSalary(salaryRange).Some?
  {
    match ParseSalary(salaryRange)
    case Some(m) => (Some(DecimalValue(m.low) * 1000), Some(DecimalValue(m.high) * 1000))
    case None => (None, None)
  }

  /** `${type} position. Required skills: ${skills.join(', ')}` */
  function Api1Description(jobType: string, skills: seq<string>): string {
    jobType + " position. Required skills: " + Join(skills, ", ")
  }

  /** The draft row for a first-provider record. */
  function TransformApi1(offer: Api1JobOffer): (t: Transformed)
    ensures t.Skipped? <==> offer.jobId == ""
    ensures t.Failed? <==> offer.jobId != "" && (offer.details.None? || offer.company.None? || offer.skills.None?)
  {
    if offer.jobId == "" then Skipped
    else if offer.details.None? || offer.company.None? || offer.skills.None? then Failed
    else
      var details := offer.details.value;
      var bounds := SalaryBounds(details.salaryRange);
      Ready(OfferDraft(
        offer.title,
        offer.company.value.name,
        Some(Api1Description(details.jobType, offer.skills.value)),
        Some(details.location),
        bounds.0,
        bounds.1,
        "API1",
        "API1_" + offer.jobId))
  }

  /** `${city}, ${state}` followed by " (Remote)" for a remote position. */
  function LocationText(location: Api2Location): string {
    location.city + ", " + location.state + (if location.remote then " (Remote)" else "")
  }

  /** Every nested object the second-provider transform reads through is present. */
  predicate Api2Complete(job: Api2JobOffer) {
    && job.employer.Some? && job.requirements.Some? && job.requirements.value.technologies.Some?
    && job.location.Some? && job.compensation.Some?
  }

  /** `Experience: ${experience} years. Technologies: ${technologies.join(', ')}` */
  function Api2Description(experience: int, technologies: seq<string>): string {
    "Experience: " + IntToString(experience) + " years. Technologies: " + Join(technologies, ", ")
  }

  /** The draft row for a second-provider record (its map key injected as `jobId`). */
  function TransformApi2(offer: KeyedApi2JobOffer): (t: Transformed)
    ensures t.Skipped? <==> offer.jobId == ""
    ensures t.Failed? <==> offer.jobId != "" && !Api2Complete(offer.job)
  {
    if offer.jobId == "" then Skipped
    else if !Api2Complete(offer.job) then Failed
    else
      var job := offer.job;
      var requirements := job.requirements.value;
      Ready(OfferDraft(
        job.position,
        job.employer.value.companyName,
        Some(Api2Description(requirements.experience, requirements.technologies.value)),
        Some(LocationText(job.location.value)),
        Some(job.compensation.value.min),
        Some(job.compensation.value.max),
        "API2",
        "API2_" + offer.jobId))
  }

  /** The columns of a first-provider draft: title, company name, location, parsed salary, tagged identity. */
  lemma Api1DraftColumns(offer: Api1JobOffer)
    requires offer.jobId != "" && offer.details.Some? && offer.company.Some? && offer.skills.Some?
    ensures TransformApi1(offer).Ready?
    ensures var d := TransformApi1(offer).draft;
            && d.sourceApi == "API1"
            && d.externalId == "API1_" + offer.jobId
            && d.title == offer.title
            && d.company == offer.company.value.name
            && d.location == Some(offer.details.value.location)
            && d.description == Some(Api1Description(offer.details.value.jobType, offer.skills.value))
  {
    var details := offer.details.value;
    var bounds := SalaryBounds(details.salaryRange);
    assert TransformApi1(offer) == Ready(OfferDraft(
      offer.title, offer.company.value.name, Some(Api1Description(details.jobType, offer.skills.value)),
      Some(details.location), bounds.0, bounds.1, "API1", "API1_" + offer.jobId));
  }

  /** The salary columns of a first-provider draft are the bounds parsed from `salaryRange`. */
  lemma Api1DraftSalary(offer: Api1JobOffer)
    requires offer.jobId != "" && offer.details.Some? && offer.company.Some? && offer.skills.Some?
    ensures TransformApi1(offer).Ready?
    ensures var d := TransformApi1(offer).draft;
            (d.minSalary, d.maxSalary) == SalaryBounds(offer.details.value.salaryRange)
  {
    var details := offer.details.value;
    var bounds := SalaryBounds(details.salaryRange);
    assert TransformApi1(offer) == Ready(OfferDraft(
      offer.title, offer.company.value.name, Some(Api1Description(details.jobType, offer.skills.value)),
      Some(details.location), bounds.0, bounds.1, "API1", "API1_" + offer.jobId));
  }

  /** The columns of a second-provider draft: position, employer, location text, compensation, tagged identity. */
  lemma Api2DraftColumns(offer: KeyedApi2JobOffer)
    requires offer.jobId != "" && Api2Complete(offer.job)
    ensures TransformApi2(offer).Ready?
    ensures var d := TransformApi2(offer).draft;
            && d.sourceApi == "API2"
            && d.externalId == "API2_" + offer.jobId
            && d.title == offer.job.position
            && d.company == offer.job.employer.value.companyName
            && d.location == Some(LocationText(offer.job.location.value))
            && d.description == Some(Api2Description(offer.job.requirements.value.experience,
                                                     offer.job.requirements.value.technologies.value))
            && d.minSalary == Some(offer.job.compensation.value.min)
            && d.maxSalary == Some(offer.job.compensation.value.max)
  {
    var job := offer.job;
    var requirements := job.requirements.value;
    assert TransformApi2(offer) == Ready(OfferDraft(
      job.position, job.employer.value.companyName,
      Some(Api2Description(requirements.experience, requirements.technologies.value)),
      Some(LocationText(job.location.value)), Some(job.compensation.value.min), Some(job.compensation.value.max),
      "API2", "API2_" + offer.jobId));
  }

  /**
   * The location text starts with `city, state` and is longer than that by exactly the
   * length of " (Remote)" for a remote position and by nothing otherwise.
   */
  lemma LocationRemoteIff(location: Api2Location)
    ensures var head := location.city + ", " + location.state;
            var text := LocationText(location);
            && |head| <= |text| && text[..|head|] == head
            && (location.remote <==> |text| == |head| + |" (Remote)"|)
            && (location.remote <==> |text| != |head|)
            && (location.remote ==> text[|head|..] == " (Remote)")
  {
    var head := location.city + ", " + location.state;
    var text := LocationText(location);
    assert text == head + (if location.remote then " (Remote)" else "");
    assert text[..|head|] == head;
  }

  /** The first-provider description opens with the job type and closes with the joined skills. */
  lemma Api1DescriptionParts(jobType: string, skills: seq<string>)
    ensures var d, head := Api1Description(jobType, skills), jobType + " position. Required skills: ";
            && |d| == |head| + |Join(skills, ", ")|
            && d[..|jobType|] == jobType
            && d[|head|..] == Join(skills, ", ")
  {
    var head := jobType + " position. Required skills: ";
    var d := Api1Description(jobType, skills);
    assert d == head + Join(skills, ", ");
    assert d[..|head|] == head;
    assert head[..|jobType|] == jobType;
  }

  /** The second-provider description opens with the rendered experience and closes with the joined technologies. */
  lemma Api2DescriptionParts(experience: int, technologies: seq<string>)
    ensures var d, head := Api2Description(experience, technologies),
                           "Experience: " + IntToString(experience) + " years. Technologies: ";
            && |d| == |head| + |Join(technologies, ", ")|
            && d[12..12 + |IntToString(experience)|] == IntToString(experience)
            && d[|head|..] == Join(technologies, ", ")
  {
    var n := IntToString(experience);
    var head := "Experience: " + n + " years. Technologies: ";
    var d := Api2Description(experience, technologies);
    assert d == head + Join(technologies, ", ");
    assert d[..|head|] == head;
    assert head[12..12 + |n|] == n;
  }

  // ---- identities ----

  /** Two records of the first provider get the same identity only if they have the same jobId. */
  lemma Api1IdentityInjective(a: Api1JobOffer, b: Api1JobOffer)
    requires TransformApi1(a).Ready? && TransformApi1(b).Ready?
    requires TransformApi1(a).draft.externalId == TransformApi1(b).draft.externalId
    ensures a.jobId == b.jobId
  {
    var x, y := TransformApi1(a).draft.externalId, TransformApi1(b).draft.externalId;
    assert a.jobId == x[5..] && b.jobId == y[5..];
  }

  /** Two records of the second provider get the same identity only if they have the same key. */
  lemma Api2IdentityInjective(a: KeyedApi2JobOffer, b: KeyedApi2JobOffer)
    requires TransformApi2(a).Ready? && TransformApi2(b).Ready?
    requires TransformApi2(a).draft.externalId == TransformApi2(b).draft.externalId
    ensures a.jobId == b.jobId
  {
    var x, y := TransformApi2(a).draft.externalId, TransformApi2(b).draft.externalId;
    assert a.jobId == x[5..] && b.jobId == y[5..];
  }

  /** The providers' identity spaces are disjoint: a record of one never shadows a record of the other. */
  lemma ProvidersNeverCollide(a: Api1JobOffer, b: KeyedApi2JobOffer)
    requires TransformApi1(a).Ready? && TransformApi2(b).Ready?
    ensures TransformApi1(a).draft.externalId != TransformApi2(b).draft.externalId
  {
    Api1DraftColumns(a);
    Api2DraftColumns(b);
    assert ("API1_" + a.jobId)[3] == '1';
    assert ("API2_" + b.jobId)[3] == '2';
  }

  /**
   * The bounds are read from the leftmost occurrence of the pattern: its first group and its
   * second group, each taken as thousands.
   */
  lemma SalaryBoundsOfLeftmost(s: string, i: nat, a: nat, b: nat, c: nat, e: nat)
    requires Spans(s, i, a, b, c, e) && NoOccurrenceBefore(s, i)
    ensures SalaryBounds(s) == (Some(DecimalValue(s[i + 1..a]) * 1000), Some(DecimalValue(s[c + 1..e]) * 1000))
  {
    ParseSalaryOfLeftmost(s, i, a, b, c, e);
  }

  /** The documented salary example becomes the bounds 69000 and 103000. */
  lemma SalaryBoundsExample()
    ensures SalaryBounds("$69k - $103k") == (Some(69000), Some(103000))
  {
    ParseSalaryExample();
    LowDigits();
    HighDigits();
  }

  lemma LowDigits()
    ensures AllDigits("69") && DecimalValue("69") == 69
  {
    DecimalSnoc("6", '9');
    assert "6" + ['9'] == "69";
  }

  lemma HighDigits()
    ensures AllDigits("103") && DecimalValue("103") == 103
  {
    DecimalSnoc("1", '0');
    assert "1" + ['0'] == "10";
    DecimalSnoc("10", '3');
    assert "10" + ['3'] == "103";
  }

  // ---- outcomes of a batch ----

  /** The drafts handed to `saveOffer`, in record order. */
  function Drafts(ts: seq<Transformed>): (ds: seq<OfferDraft>)
    ensures |ds| <= |ts|
    ensures forall k :: 0 <= k < |ts| && ts[k].Ready? ==> ts[k].draft in ds
  {
    if ts == [] then []
    else
      var last := ts[|ts| - 1];
      assert forall k :: 0 <= k < |ts| - 1 ==> ts[..|ts| - 1][k] == ts[k];
      Drafts(ts[..|ts| - 1]) + (if last.Ready? then [last.draft] else [])
  }

  /** The number of records whose transform returned normally: what `savedCount` counts. */
  function Completed(ts: seq<Transformed>): (n: nat)
    ensures n <= |ts|
    ensures n == |ts| - FailedCount(ts)
  {
    if ts == [] then 0
    else Completed(ts[..|ts| - 1]) + (if ts[|ts| - 1].Failed? then 0 else 1)
  }

  function FailedCount(ts: seq<Transformed>): nat {
    if ts == [] then 0
    else FailedCount(ts[..|ts| - 1]) + (if ts[|ts| - 1].Failed? then 1 else 0)
  }

  /** Extending a batch by one outcome. */
  lemma OutcomeStep(ts: seq<Transformed>, i: nat)
    requires i < |ts|
    ensures Drafts(ts[..i + 1]) == Drafts(ts[..i]) + (if ts[i].Ready? then [ts[i].draft] else [])
    ensures Completed(ts[..i + 1]) == Completed(ts[..i]) + (if ts[i].Failed? then 0 else 1)
  {
    assert ts[..i + 1][..i] == ts[..i];
  }

  /** The effect of one outcome on the table: a ready draft is saved, anything else changes nothing. */
  function ApplyOutcome(t: Table, o: Transformed): Table {
    if o.Ready? then Save(t, o.draft) else t
  }

  /** One more record of a batch: its draft, if any, is saved after the earlier ones. */
  lemma BatchStep(t0: Table, ts: seq<Transformed>, i: nat)
    requires i < |ts|
    ensures SaveAll(t0, Drafts(ts[..i + 1])) == ApplyOutcome(SaveAll(t0, Drafts(ts[..i])), ts[i])
    ensures Completed(ts[..i + 1]) == Completed(ts[..i]) + (if ts[i].Failed? then 0 else 1)
  {
    OutcomeStep(ts, i);
    if ts[i].Ready? {
      SaveAllSnoc(t0, Drafts(ts[..i]), ts[i].draft);
    } else {
      assert Drafts(ts[..i + 1]) == Drafts(ts[..i]);
    }
  }

  function Api1Outcomes(offers: seq<Api1JobOffer>): (ts: seq<Transformed>)
    ensures |ts| == |offers|
    ensures forall k :: 0 <= k < |offers| ==> ts[k] == TransformApi1(offers[k])
  {
    if offers == [] then [] else [TransformApi1(offers[0])] + Api1Outcomes(offers[1..])
  }

  function Api2Outcomes(offers: seq<KeyedApi2JobOffer>): (ts: seq<Transformed>)
    ensures |ts| == |offers|
    ensures forall k :: 0 <= k < |offers| ==> ts[k] == TransformApi2(offers[k])
  {
    if offers == [] then [] else [TransformApi2(offers[0])] + Api2Outcomes(offers[1..])
  }

  // ---- the imperative part ----

  /** `saveOffer`: store the draft unless its identity is missing or already present. */
  method SaveOffer(service: JobOffersService, offer: OfferDraft)
    requires service.Valid()
    modifies service
    ensures service.Valid()
    ensures service.State() == Save(old(service.State()), offer)
  {
    if offer.externalId == "" {
      return;
    }
    var existing := service.FindByExternalId(offer.externalId);
    if existing.None? {
      var created := service.Create(offer);
    }
  }

  /**
   * The loop of `fetchAndTransformApi1Offers` / `fetchAndTransformApi2Offers` over the records'
   * outcomes: a ready draft goes to `saveOffer`, and every record whose transform did not
   * throw is counted.
   */
  method SaveOutcomes(service: JobOffersService, ts: seq<Transformed>) returns (savedCount: nat)
    requires service.Valid()
    modifies service
    ensures service.Valid()
    ensures savedCount == Completed(ts)
    ensures service.State() == SaveAll(old(service.State()), Drafts(ts))
  {
    ghost var t0 := service.State();
    savedCount := 0;
    for i := 0 to |ts|
      invariant service.Valid()
      invariant savedCount == Completed(ts[..i])
      invariant service.State() == SaveAll(t0, Drafts(ts[..i]))
    {
      BatchStep(t0, ts, i);
      if ts[i].Ready? {
        SaveOffer(service, ts[i].draft);
      }
      if !ts[i].Failed? {
        savedCount := savedCount + 1;
      }
    }
    assert ts[..|ts|] == ts;
  }

  /** `fetchAndTransformApi1Offers`: every record of the reply, transformed and saved in order. */
  method FetchAndTransformApi1Offers(service: JobOffersService, apiUrl: Option<string>, reply: HttpReply<Api1Response>)
    returns (savedCount: nat)
    requires service.Valid()
    modifies service
    ensures service.Valid()
    ensures var ts := Api1Outcomes(FetchFromApi1(apiUrl, reply));
            && savedCount == Completed(ts)
            && service.State() == SaveAll(old(service.State()), Drafts(ts))
  {
    var offers := FetchFromApi1(apiUrl, reply);
    savedCount := SaveOutcomes(service, Api1Outcomes(offers));
  }

  /** `fetchAndTransformApi2Offers`: the same over the flattened `jobsList`. */
  method FetchAndTransformApi2Offers(service: JobOffersService, apiUrl: Option<string>, reply: HttpReply<Api2Response>)
    returns (savedCount: nat)
    requires service.Valid()
    modifies service
    ensures service.Valid()
    ensures var ts := Api2Outcomes(FetchFromApi2(apiUrl, reply));
            && savedCount == Completed(ts)
            && service.State() == SaveAll(old(service.State()), Drafts(ts))
  {
    var offers := FetchFromApi2(apiUrl, reply);
    savedCount := SaveOutcomes(service, Api2Outcomes(offers));
  }

  /** The drafts one tick stores from each provider. */
  function Api1Drafts(apiUrl: Option<string>, reply: HttpReply<Api1Response>): seq<OfferDraft> {
    Drafts(Api1Outcomes(FetchFromApi1(apiUrl, reply)))
  }

  function Api2Drafts(apiUrl: Option<string>, reply: HttpReply<Api2Response>): seq<OfferDraft> {
    Drafts(Api2Outcomes(FetchFromApi2(apiUrl, reply)))
  }

  /** `fetchJobOffers`: both adapters, one after the other, returning their counts. */
  method FetchJobOffers(service: JobOffersService,
                        api1Url: Option<string>, api1Reply: HttpReply<Api1Response>,
                        api2Url: Option<string>, api2Reply: HttpReply<Api2Response>)
    returns (api1Count: nat, api2Count: nat)
    requires service.Valid()
    modifies service
    ensures service.Valid()
    ensures api1Count == Completed(Api1Outcomes(FetchFromApi1(api1Url, api1Reply)))
    ensures api2Count == Completed(Api2Outcomes(FetchFromApi2(api2Url, api2Reply)))
    ensures service.State()
            == SaveAll(SaveAll(old(service.State()), Api1Drafts(api1Url, api1Reply)), Api2Drafts(api2Url, api2Reply))
  {
    api1Count := FetchAndTransformApi1Offers(service, api1Url, api1Reply);
    api2Count := FetchAndTransformApi2Offers(service, api2Url, api2Reply);
  }

  // ---- properties of a tick ----

  /** Every saved draft is the draft of some record of the batch. */
  lemma {:induction false} DraftsFromReady(ts: seq<Transformed>)
    ensures forall d :: d in Drafts(ts) ==> Ready(d) in ts
  {
    if ts != [] {
      var init := ts[..|ts| - 1];
      DraftsFromReady(init);
      assert ts == init + [ts[|ts| - 1]];
    }
  }

  /** Each outcome of the first adapter is the transform of one of its records. */
  lemma {:induction false} Api1OutcomeOf(offers: seq<Api1JobOffer>, o: Transformed)
    requires o in Api1Outcomes(offers)
    ensures exists j :: 0 <= j < |offers| && o == TransformApi1(offers[j])
  {
    if o != TransformApi1(offers[0]) {
      Api1OutcomeOf(offers[1..], o);
      var j :| 0 <= j < |offers[1..]| && o == TransformApi1(offers[1..][j]);
      assert o == TransformApi1(offers[j + 1]);
    }
  }

  /** Each outcome of the second adapter is the transform of one of its records. */
  lemma {:induction false} Api2OutcomeOf(offers: seq<KeyedApi2JobOffer>, o: Transformed)
    requires o in Api2Outcomes(offers)
    ensures exists j :: 0 <= j < |offers| && o == TransformApi2(offers[j])
  {
    if o != TransformApi2(offers[0]) {
      Api2OutcomeOf(offers[1..], o);
      var j :| 0 <= j < |offers[1..]| && o == TransformApi2(offers[1..][j]);
      assert o == TransformApi2(offers[j + 1]);
    }
  }

  /**
   * A record without a jobId writes nothing: every draft the first adapter stores comes from
   * a fetched record with a non-empty jobId and carries that jobId under the "API1_" tag.
   */
  lemma Api1DraftsTagged(apiUrl: Option<string>, reply: HttpReply<Api1Response>)
    ensures var offers := FetchFromApi1(apiUrl, reply);
            forall d :: d in Api1Drafts(apiUrl, reply) ==>
              && d.sourceApi == "API1"
              && exists j :: 0 <= j < |offers| && offers[j].jobId != "" && d.externalId == "API1_" + offers[j].jobId
  {
    var offers := FetchFromApi1(apiUrl, reply);
    var ts := Api1Outcomes(offers);
    DraftsFromReady(ts);
    forall d | d in Api1Drafts(apiUrl, reply)
      ensures d.sourceApi == "API1"
      ensures exists j :: 0 <= j < |offers| && offers[j].jobId != "" && d.externalId == "API1_" + offers[j].jobId
    {
      Api1OutcomeOf(offers, Ready(d));
      var j :| 0 <= j < |offers| && Ready(d) == TransformApi1(offers[j]);
      Api1DraftColumns(offers[j]);
    }
  }

  /** The same for the second adapter, with the "API2_" tag and the record's map key. */
  lemma Api2DraftsTagged(apiUrl: Option<string>, reply: HttpReply<Api2Response>)
    ensures var offers := FetchFromApi2(apiUrl, reply);
            forall d :: d in Api2Drafts(apiUrl, reply) ==>
              && d.sourceApi == "API2"
              && exists j :: 0 <= j < |offers| && offers[j].jobId != "" && d.externalId == "API2_" + offers[j].jobId
  {
    var offers := FetchFromApi2(apiUrl, reply);
    var ts := Api2Outcomes(offers);
    DraftsFromReady(ts);
    forall d | d in Api2Drafts(apiUrl, reply)
      ensures d.sourceApi == "API2"
      ensures exists j :: 0 <= j < |offers| && offers[j].jobId != "" && d.externalId == "API2_" + offers[j].jobId
    {
      Api2OutcomeOf(offers, Ready(d));
      var j :| 0 <= j < |offers| && Ready(d) == TransformApi2(offers[j]);
      Api2DraftColumns(offers[j]);
    }
  }

  /**
   * An adapter whose URL is not configured, whose request fails or whose reply has the wrong
   * shape stores nothing and returns 0.
   */
  lemma FailedFetchStoresNothing(api1Url: Option<string>, api1Reply: HttpReply<Api1Response>,
                                 api2Url: Option<string>, api2Reply: HttpReply<Api2Response>)
    ensures || !Configured(api1Url) || api1Reply.RequestFailed?
            || api1Reply.data.None? || !api1Reply.data.value.jobs.JobsArray? ==>
              Api1Drafts(api1Url, api1Reply) == [] && Completed(Api1Outcomes(FetchFromApi1(api1Url, api1Reply))) == 0
    ensures !Configured(api2Url) || !Api2Accepted(api2Reply) ==>
              Api2Drafts(api2Url, api2Reply) == [] && Completed(Api2Outcomes(FetchFromApi2(api2Url, api2Reply))) == 0
  {
  }

  /** The table after one tick, as `FetchJobOffers` leaves it. */
  function Tick(t: Table, api1Url: Option<string>, api1Reply: HttpReply<Api1Response>,
                api2Url: Option<string>, api2Reply: HttpReply<Api2Response>): Table
  {
    SaveAll(SaveAll(t, Api1Drafts(api1Url, api1Reply)), Api2Drafts(api2Url, api2Reply))
  }

  /**
   * A tick keeps identities unique, never touches an existing row, and adds exactly one row
   * per new identity of either provider.
   */
  lemma TickGrowth(t: Table, api1Url: Option<string>, api1Reply: HttpReply<Api1Response>,
                   api2Url: Option<string>, api2Reply: HttpReply<Api2Response>)
    requires TableValid(t)
    ensures var r := Tick(t, api1Url, api1Reply, api2Url, api2Reply);
            var added := NonEmptyIds(Api1Drafts(api1Url, api1Reply)) + NonEmptyIds(Api2Drafts(api2Url, api2Reply));
            && TableValid(r) && t.rows <= r.rows
            && ExternalIds(r.rows) == ExternalIds(t.rows) + added
            && |r.rows| == |t.rows| + |added - ExternalIds(t.rows)|
  {
    var a, b := Api1Drafts(api1Url, api1Reply), Api2Drafts(api2Url, api2Reply);
    var r := Tick(t, api1Url, api1Reply, api2Url, api2Reply);
    SaveAllConcat(t, a, b);
    SaveAllValid(t, a + b);
    SaveAllKeepsRows(t, a + b);
    SaveAllIds(t, a + b);
    NonEmptyIdsConcat(a, b);
    GrowthByIds(t, r, NonEmptyIds(a) + NonEmptyIds(b));
  }

  /** Re-running a tick over the same replies adds no rows and changes nothing. */
  lemma TickTwice(t: Table, api1Url: Option<string>, api1Reply: HttpReply<Api1Response>,
                  api2Url: Option<string>, api2Reply: HttpReply<Api2Response>)
    ensures var once := Tick(t, api1Url, api1Reply, api2Url, api2Reply);
            Tick(once, api1Url, api1Reply, api2Url, api2Reply) == once
  {
    var a, b := Api1Drafts(api1Url, api1Reply), Api2Drafts(api2Url, api2Reply);
    var once := Tick(t, api1Url, api1Reply, api2Url, api2Reply);
    SaveAllConcat(t, a, b);
    SaveAllConcat(once, a, b);
    SaveAllIdempotent(t, a + b);
  }
}
