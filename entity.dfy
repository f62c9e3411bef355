/**
 * The `job_offers` table row and the partial record callers hand to `create`.
 * `id`, `createdAt` and `updatedAt` are generated by the store; `description`,
 * `location`, `minSalary` and `maxSalary` are nullable; `externalId` is unique.
 */
module Entity {
  import opened Wrappers

  datatype JobOffer = JobOffer(
    id: nat,
    title: string,
    company: string,
    description: Option<string>,
    location: Option<string>,
    minSalary: Option<int>,
    maxSalary: Option<int>,
    sourceApi: string,
    externalId: string,
    createdAt: nat,
    updatedAt: nat)

  /** The caller-supplied columns of a row (`Partial<JobOffer>` without the generated ones). */
  datatype OfferDraft = OfferDraft(
    title: string,
    company: string,
    description: Option<string>,
    location: Option<string>,
    minSalary: Option<int>,
    maxSalary: Option<int>,
    sourceApi: string,
    externalId: string)

  function DraftOf(row: JobOffer): OfferDraft {
    OfferDraft(row.title, row.company, row.description, row.location,
               row.minSalary, row.maxSalary, row.sourceApi, row.externalId)
  }

  /** The row the store builds from a draft, with its generated id and timestamps. */
  function NewRow(d: OfferDraft, id: nat, now: nat): (row: JobOffer)
    ensures DraftOf(row) == d
    ensures row.id == id && row.createdAt == now && row.updatedAt == now
  {
    JobOffer(id, d.title, d.company, d.description, d.location,
             d.minSalary, d.maxSalary, d.sourceApi, d.externalId, now, now)
  }

  /** The set of external identities present in a sequence of rows. */
  function ExternalIds(rows: seq<JobOffer>): (ids: set<string>)
    ensures forall ext :: ext in ids <==> exists k :: 0 <= k < |rows| && rows[k].externalId == ext
  {
    if rows == [] then {}
    else
      var ids := ExternalIds(rows[..|rows| - 1]) + {rows[|rows| - 1].externalId};
      assert forall k :: 0 <= k < |rows| - 1 ==> rows[..|rows| - 1][k] == rows[k];
      ids
  }

  /** The column constraint `unique: true` on `externalId`. */
  predicate UniqueExternalIds(rows: seq<JobOffer>) {
    forall i, j :: 0 <= i < j < |rows| ==> rows[i].externalId != rows[j].externalId
  }

  /** Number of rows carrying a given external identity. */
  function CountWithExternalId(rows: seq<JobOffer>, ext: string): nat {
    if rows == [] then 0
    else CountWithExternalId(rows[..|rows| - 1], ext) + (if rows[|rows| - 1].externalId == ext then 1 else 0)
  }

  /** Under the unique constraint every present identity is carried by exactly one row. */
  lemma {:induction false} UniqueMeansOnce(rows: seq<JobOffer>, ext: string)
    requires UniqueExternalIds(rows)
    ensures CountWithExternalId(rows, ext) == (if ext in ExternalIds(rows) then 1 else 0)
  {
    if rows != [] {
      var init := rows[..|rows| - 1];
      assert UniqueExternalIds(init) by {
        forall i, j | 0 <= i < j < |init| ensures init[i].externalId != init[j].externalId {
          assert init[i] == rows[i] && init[j] == rows[j];
        }
      }
      UniqueMeansOnce(init, ext);
      var last := rows[|rows| - 1].externalId;
      assert last !in ExternalIds(init) by {
        forall k | 0 <= k < |init| ensures init[k].externalId != last {
          assert init[k] == rows[k];
        }
      }
    }
  }

  /** Under the unique constraint there are as many distinct identities as rows. */
  lemma {:induction false} UniqueCardinality(rows: seq<JobOffer>)
    requires UniqueExternalIds(rows)
    ensures |ExternalIds(rows)| == |rows|
  {
    if rows != [] {
      var init := rows[..|rows| - 1];
      var last := rows[|rows| - 1].externalId;
      assert UniqueExternalIds(init) by {
        forall i, j | 0 <= i < j < |init| ensures init[i].externalId != init[j].externalId {
          assert init[i] == rows[i] && init[j] == rows[j];
        }
      }
      UniqueCardinality(init);
      assert last !in ExternalIds(init) by {
        forall k | 0 <= k < |init| ensures init[k].externalId != last {
          assert init[k] == rows[k];
        }
      }
      assert ExternalIds(rows) == ExternalIds(init) + {last};
    }
  }
}
