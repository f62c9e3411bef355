/**
 * `JobOffersService` with its repository replaced by an in-memory table: the rows in
 * insertion order, the next id to hand out and a clock for `createdAt`/`updatedAt`.
 * `findAll` is the pure query in module Query, applied to `rows`.
 */
module JobOffers {
  import opened Wrappers
  import opened Entity
  import opened Store

  /** The repository's `save` fails on the unique constraint of `externalId`. */
  datatype StoreError = DuplicateExternalId

  class JobOffersService {
    var rows: seq<JobOffer>
    var nextId: nat
    var clock: nat

    ghost function State(): Table
      reads this
    {
      Table(rows, nextId, clock)
    }

    ghost predicate Valid()
      reads this
    {
      TableValid(State())
    }

    /** The service over whatever valid table the injected repository already holds. */
    constructor (t: Table)
      requires TableValid(t)
      ensures Valid() && State() == t
    {
      rows, nextId, clock := t.rows, t.nextId, t.clock;
    }

    /** `findByExternalId`: the row with that identity, or null when there is none. */
    method FindByExternalId(externalId: string) returns (found: Option<JobOffer>)
      ensures found.Some? <==> externalId in ExternalIds(rows)
      ensures found.Some? ==> found.value in rows && found.value.externalId == externalId
    {
      var i := 0;
      while i < |rows|
        invariant 0 <= i <= |rows|
        invariant forall k :: 0 <= k < i ==> rows[k].externalId != externalId
      {
        if rows[i].externalId == externalId {
          return Some(rows[i]);
        }
        i := i + 1;
      }
      return None;
    }

    /**
     * `create` followed by the repository's `save`: the store assigns the id and both
     * timestamps; a second row with an existing `externalId` is refused by the constraint.
     */
    method Create(offer: OfferDraft) returns (r: Result<JobOffer, StoreError>)
      requires Valid()
      modifies this
      ensures Valid()
      ensures r.Failure? <==> offer.externalId in ExternalIds(old(rows))
      ensures r.Failure? ==> State() == old(State())
      ensures r.Success? ==> State() == Insert(old(State()), offer)
                             && r.value == NewRow(offer, old(nextId), old(clock))
    {
      var existing := FindByExternalId(offer.externalId);
      if existing.Some? {
        return Failure(DuplicateExternalId);
      }
      var row := NewRow(offer, nextId, clock);
      rows, nextId, clock := rows + [row], nextId + 1, clock + 1;
      r := Success(row);
    }

    /** `createTestData`: for each fixed offer, create it unless its identity is present. */
    method CreateTestData()
      requires Valid()
      modifies this
      ensures Valid()
      ensures State() == SaveAll(old(State()), TestOffers())
    {
      ghost var t0 := State();
      var offers := TestOffers();
      TestOffersHaveIds();
      for i := 0 to |offers|
        invariant Valid()
        invariant State() == SaveAll(t0, offers[..i])
      {
        ghost var before := State();
        var existing := FindByExternalId(offers[i].externalId);
        if existing.None? {
          var created := Create(offers[i]);
        }
        assert State() == Save(before, offers[i]);
        SaveAllStep(t0, offers, i);
      }
      assert offers[..|offers|] == offers;
    }
  }

  /** The three fixed offers of `createTestData`. */
  function TestOffers(): seq<OfferDraft> {
    [SeniorEngineerOffer(), FrontendOffer(), DevOpsOffer()]
  }

  function SeniorEngineerOffer(): (d: OfferDraft)
    ensures d.externalId == "TEST_1"
  {
    OfferDraft("Senior Software Engineer", "Tech Corp",
               Some("Looking for a senior software engineer with 5+ years of experience"),
               Some("New York, USA"), Some(120000), Some(180000), "TEST", "TEST_1")
  }

  function FrontendOffer(): (d: OfferDraft)
    ensures d.externalId == "TEST_2"
  {
    OfferDraft("Frontend Developer", "Web Solutions",
               Some("Frontend developer position with React experience"),
               Some("San Francisco, USA"), Some(90000), Some(140000), "TEST", "TEST_2")
  }

  function DevOpsOffer(): (d: OfferDraft)
    ensures d.externalId == "TEST_3"
  {
    OfferDraft("DevOps Engineer", "Cloud Services Inc",
               Some("DevOps engineer with AWS and Kubernetes experience"),
               Some("Remote"), Some(100000), Some(160000), "TEST", "TEST_3")
  }

  /** Every seed offer carries an external identity. */
  lemma TestOffersHaveIds()
    ensures forall k :: 0 <= k < |TestOffers()| ==> TestOffers()[k].externalId != ""
  {
    var offers := TestOffers();
    forall k | 0 <= k < |offers| ensures offers[k].externalId != "" {
      assert k == 0 || k == 1 || k == 2;
    }
  }

  const TestIds: set<string> := {"TEST_1", "TEST_2", "TEST_3"}

  lemma TestOfferIds()
    ensures NonEmptyIds(TestOffers()) == TestIds
  {
    var ds := TestOffers();
    assert ds[..2][..1][..0] == [];
    assert NonEmptyIds(ds[..1]) == {"TEST_1"};
    assert NonEmptyIds(ds[..2]) == {"TEST_1", "TEST_2"};
  }

  /**
   * Seeding creates exactly the seed offers whose identity is absent (none when all
   * three exist), keeps every existing row in place, and leaves all three present.
   */
  lemma SeedCreatesMissing(t: Table)
    requires TableValid(t)
    ensures var r := SaveAll(t, TestOffers());
            && TableValid(r) && t.rows <= r.rows
            && ExternalIds(r.rows) == ExternalIds(t.rows) + TestIds
            && |r.rows| == |t.rows| + |TestIds - ExternalIds(t.rows)|
  {
    TestOfferIds();
    SaveAllValid(t, TestOffers());
    SaveAllKeepsRows(t, TestOffers());
    SaveAllIds(t, TestOffers());
    SaveAllGrowth(t, TestOffers());
  }

  /** Seeding twice: the second call changes nothing and each seed row exists exactly once. */
  lemma SeedTwice(t: Table)
    requires TableValid(t)
    ensures var once := SaveAll(t, TestOffers());
            && SaveAll(once, TestOffers()) == once
            && forall ext :: ext in TestIds ==> CountWithExternalId(once.rows, ext) == 1
  {
    var once := SaveAll(t, TestOffers());
    SaveAllIdempotent(t, TestOffers());
    SeedCreatesMissing(t);
    forall ext | ext in TestIds ensures CountWithExternalId(once.rows, ext) == 1 {
      UniqueMeansOnce(once.rows, ext);
    }
  }
}
