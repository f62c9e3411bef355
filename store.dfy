/**
 * The repository as a value: the rows in insertion order plus the counters from which the
 * store draws a fresh id and a fresh creation time. `Save` is the lookup-then-insert rule of
 * `saveOffer`; `SaveAll` applies it to a sequence of drafts in order.
 */
module Store {
  import opened Wrappers
  import opened Entity

  datatype Table = Table(rows: seq<JobOffer>, nextId: nat, clock: nat)

  /**
   * The unique constraint on `externalId`, ids below the id counter and increasing,
   * creation times below the clock and increasing, `updatedAt` equal to `createdAt`
   * (rows are never updated).
   */
  predicate TableValid(t: Table) {
    && UniqueExternalIds(t.rows)
    && (forall i, j :: 0 <= i < j < |t.rows| ==> t.rows[i].id < t.rows[j].id && t.rows[i].createdAt < t.rows[j].createdAt)
    && (forall k :: 0 <= k < |t.rows| ==>
          t.rows[k].id < t.nextId && t.rows[k].createdAt < t.clock && t.rows[k].updatedAt == t.rows[k].createdAt)
  }

  const EmptyTable := Table([], 0, 0)

  /** `create` + `save`: append a row built from the draft with a fresh id and timestamp. */
  function Insert(t: Table, d: OfferDraft): (r: Table)
    ensures r.rows == t.rows + [NewRow(d, t.nextId, t.clock)]
    ensures r.nextId == t.nextId + 1 && r.clock == t.clock + 1
  {
    Table(t.rows + [NewRow(d, t.nextId, t.clock)], t.nextId + 1, t.clock + 1)
  }

  /** Inserting a draft whose identity is not stored keeps the table valid. */
  lemma InsertValid(t: Table, d: OfferDraft)
    requires TableValid(t) && d.externalId !in ExternalIds(t.rows)
    ensures TableValid(Insert(t, d))
  {
    var r := Insert(t, d);
    var n := |t.rows|;
    assert forall k :: 0 <= k < n ==> r.rows[k] == t.rows[k];
    var row := r.rows[n];
    assert row.id == t.nextId && row.createdAt == t.clock && row.updatedAt == t.clock;
    assert row.externalId == d.externalId;
    forall i, j | 0 <= i < j < |r.rows| ensures r.rows[i].externalId != r.rows[j].externalId {
      if j == n {
        assert r.rows[i].externalId in ExternalIds(t.rows);
      }
    }
  }

  function IdsOf(externalId: string): set<string> {
    if externalId == "" then {} else {externalId}
  }

  /**
   * `saveOffer`: nothing for a missing (falsy) externalId, nothing when a row with that
   * externalId exists, otherwise one new row.
   */
  function Save(t: Table, d: OfferDraft): (r: Table)
    ensures TableValid(t) ==> TableValid(r)
    ensures t.rows <= r.rows && |r.rows| <= |t.rows| + 1
    ensures ExternalIds(r.rows) == ExternalIds(t.rows) + IdsOf(d.externalId)
    ensures |r.rows| == |t.rows| + 1 <==> d.externalId != "" && d.externalId !in ExternalIds(t.rows)
    ensures |r.rows| == |t.rows| + 1 ==> DraftOf(r.rows[|t.rows|]) == d
    ensures |r.rows| == |t.rows| ==> r == t
  {
    if d.externalId == "" || d.externalId in ExternalIds(t.rows) then t
    else
      var r := Insert(t, d);
      assert r.rows[..|r.rows| - 1] == t.rows;
      assert ExternalIds(r.rows) == ExternalIds(t.rows) + {d.externalId};
      if TableValid(t) then InsertValid(t, d); r else r
  }

  /** The non-empty external identities carried by a sequence of drafts. */
  function NonEmptyIds(ds: seq<OfferDraft>): (ids: set<string>)
    ensures "" !in ids
  {
    if ds == [] then {} else NonEmptyIds(ds[..|ds| - 1]) + IdsOf(ds[|ds| - 1].externalId)
  }

  /** The identities of two batches together. */
  lemma {:induction false} NonEmptyIdsConcat(a: seq<OfferDraft>, b: seq<OfferDraft>)
    ensures NonEmptyIds(a + b) == NonEmptyIds(a) + NonEmptyIds(b)
  {
    if b == [] {
      assert a + b == a;
    } else {
      var b' := b[..|b| - 1];
      assert (a + b)[..|a + b| - 1] == a + b';
      NonEmptyIdsConcat(a, b');
    }
  }

  /** Save each draft in turn. */
  function SaveAll(t: Table, ds: seq<OfferDraft>): Table
  {
    if ds == [] then t else Save(SaveAll(t, ds[..|ds| - 1]), ds[|ds| - 1])
  }

  /** Saving a batch keeps the table valid. */
  lemma {:induction false} SaveAllValid(t: Table, ds: seq<OfferDraft>)
    requires TableValid(t)
    ensures TableValid(SaveAll(t, ds))
  {
    if ds != [] {
      SaveAllValid(t, ds[..|ds| - 1]);
    }
  }

  /** Saving a batch never changes, reorders or removes an existing row. */
  lemma {:induction false} SaveAllKeepsRows(t: Table, ds: seq<OfferDraft>)
    ensures t.rows <= SaveAll(t, ds).rows
  {
    if ds != [] {
      SaveAllKeepsRows(t, ds[..|ds| - 1]);
    }
  }

  /** After saving a batch the stored identities are the old ones plus the batch's non-empty ones. */
  lemma {:induction false} SaveAllIds(t: Table, ds: seq<OfferDraft>)
    ensures ExternalIds(SaveAll(t, ds).rows) == ExternalIds(t.rows) + NonEmptyIds(ds)
  {
    if ds != [] {
      SaveAllIds(t, ds[..|ds| - 1]);
    }
  }

  /** When every identity is already stored, saving changes nothing at all. */
  lemma {:induction false} SaveAllNoop(t: Table, ds: seq<OfferDraft>)
    requires NonEmptyIds(ds) <= ExternalIds(t.rows)
    ensures SaveAll(t, ds) == t
  {
    if ds != [] {
      var init := ds[..|ds| - 1];
      SaveAllNoop(t, init);
    }
  }

  /** A second run over the same drafts adds nothing. */
  lemma SaveAllIdempotent(t: Table, ds: seq<OfferDraft>)
    ensures SaveAll(SaveAll(t, ds), ds) == SaveAll(t, ds)
  {
    SaveAllIds(t, ds);
    SaveAllNoop(SaveAll(t, ds), ds);
  }

  /** Saving one more draft after a batch. */
  lemma SaveAllSnoc(t: Table, ds: seq<OfferDraft>, d: OfferDraft)
    ensures SaveAll(t, ds + [d]) == Save(SaveAll(t, ds), d)
  {
    assert (ds + [d])[..|ds|] == ds;
  }

  /** The first i + 1 drafts are saved by saving the first i, then draft i. */
  lemma SaveAllStep(t: Table, ds: seq<OfferDraft>, i: nat)
    requires i < |ds|
    ensures SaveAll(t, ds[..i + 1]) == Save(SaveAll(t, ds[..i]), ds[i])
  {
    assert ds[..i + 1][..i] == ds[..i];
  }

  /** Saving two batches one after the other is saving their concatenation. */
  lemma {:induction false} SaveAllConcat(t: Table, a: seq<OfferDraft>, b: seq<OfferDraft>)
    ensures SaveAll(SaveAll(t, a), b) == SaveAll(t, a + b)
  {
    if b == [] {
      assert a + b == a;
    } else {
      var b', last := b[..|b| - 1], b[|b| - 1];
      assert b == b' + [last];
      assert a + b == (a + b') + [last];
      SaveAllConcat(t, a, b');
      SaveAllSnoc(t, a + b', last);
      SaveAllSnoc(SaveAll(t, a), b', last);
    }
  }

  /** The number of rows added is the number of new, non-empty identities. */
  lemma SaveAllGrowth(t: Table, ds: seq<OfferDraft>)
    requires TableValid(t)
    ensures |SaveAll(t, ds).rows| == |t.rows| + |NonEmptyIds(ds) - ExternalIds(t.rows)|
  {
    SaveAllValid(t, ds);
    SaveAllIds(t, ds);
    GrowthByIds(t, SaveAll(t, ds), NonEmptyIds(ds));
  }

  lemma GrowthByIds(t: Table, r: Table, added: set<string>)
    requires UniqueExternalIds(t.rows) && UniqueExternalIds(r.rows)
    requires ExternalIds(r.rows) == ExternalIds(t.rows) + added
    ensures |r.rows| == |t.rows| + |added - ExternalIds(t.rows)|
  {
    UniqueCardinality(t.rows);
    UniqueCardinality(r.rows);
    var o := ExternalIds(t.rows);
    DisjointUnionSize(o, added - o);
    assert o + added == o + (added - o);
  }

  lemma DisjointUnionSize<T>(x: set<T>, y: set<T>)
    requires x !! y
    ensures |x + y| == |x| + |y|
  {
  }
}
