/** The retention sweep: which results it ever reaches.
  *
  * The sweep reads the hundred oldest rows past the window, purged or not, and purging does not take a row out of the
  * query: only the oldest hundred are ever purged.
  */
module Retention {
  import opened Prelude
  import opened Documents
  import opened Tables
  import opened Stores

  const RETENTION: Time := 24 * 60 * MINUTE

  /** One sweep of src/ocr_engine/worker/settings.py. */
  method CleanUp(store: Store) returns (ids: seq<DocId>)
    requires store.Valid()
    modifies store`documents
    ensures store.Valid() && IsSweep(old(store.documents), store.clock - RETENTION, ids)
    ensures store.documents == Purged(old(store.documents), ids, store.clock)
    ensures |ids| <= 100 && store.documents.Keys == old(store.documents).Keys
    ensures forall d :: d in store.documents && d !in ids ==> store.documents[d] == old(store.documents)[d]
    ensures forall d <- ids ::
      && d in store.documents && old(store.documents)[d].processedAt.Some?
      && old(store.documents)[d].processedAt.value < store.clock - 86_400_000_000
      && store.documents[d] == old(store.documents)[d].(result := None, errorMessage := None, updatedAt := store.clock)
  {
    ids := store.ListExpiredDocuments(store.clock - RETENTION);
    if |ids| > 0 {
      store.PurgeDocumentResults(ids);
    } else {
      assert store.documents == Purged(store.documents, ids, store.clock);
    }
  }

  // ----- one sweep -----

  /** Rows finished strictly before `d`. */
  ghost function Older(documents: map<DocId, Row>, d: DocId): set<DocId>
    requires d in documents && documents[d].processedAt.Some?
  {
    set e | e in documents && documents[e].processedAt.Some? && documents[e].processedAt.value < documents[d].processedAt.value
  }

  /** Rows finished before `d` or at the same instant, with `d` itself. */
  ghost function NotYounger(documents: map<DocId, Row>, d: DocId): set<DocId>
    requires d in documents && documents[d].processedAt.Some?
  {
    set e | e in documents && documents[e].processedAt.Some? && documents[e].processedAt.value <= documents[d].processedAt.value
  }

  lemma ReachedHasFewOlder(documents: map<DocId, Row>, cutoff: Time, ids: seq<DocId>, d: DocId)
    requires IsSweep(documents, cutoff, ids) && Expired(documents, d, cutoff) && d in ids
    ensures |Older(documents, d)| < SWEEP_LIMIT
  {
    var expired := set e | e in documents && Expired(documents, e, cutoff);
    var older := Older(documents, d);
    DistinctCount(ids);
    forall e | e in older ensures e in Members(ids) {
      assert e in expired;
    }
    SubsetCount(older + {d}, Members(ids));
  }

  lemma MissedHasManyOlder(documents: map<DocId, Row>, cutoff: Time, ids: seq<DocId>, d: DocId)
    requires IsSweep(documents, cutoff, ids) && Expired(documents, d, cutoff) && d !in ids
    ensures |NotYounger(documents, d)| > SWEEP_LIMIT
  {
    var expired := set e | e in documents && Expired(documents, e, cutoff);
    DistinctCount(ids);
    assert Members(ids) + {d} <= expired;
    SubsetCount(Members(ids) + {d}, expired);
    assert Members(ids) + {d} <= NotYounger(documents, d);
    SubsetCount(Members(ids) + {d}, NotYounger(documents, d));
  }

  /** A choice among the oldest rows left: `d` first of all if `early`, else last of all. */
  ghost predicate Picks(documents: map<DocId, Row>, left: set<DocId>, d: DocId, early: bool, e: DocId)
    requires forall x <- left :: x in documents && documents[x].processedAt.Some?
  {
    && IsOldest(documents, left, e)
    && (early && IsOldest(documents, left, d) ==> e == d)
    && (!early && e == d ==> forall x :: x in left && IsOldest(documents, left, x) ==> x == d)
  }

  lemma PickExists(documents: map<DocId, Row>, left: set<DocId>, d: DocId, early: bool) returns (e: DocId)
    requires left != {} && forall x <- left :: x in documents && documents[x].processedAt.Some?
    ensures Picks(documents, left, d, early, e)
  {
    OldestExpired(documents, left);
    if early && IsOldest(documents, left, d) {
      e := d;
    } else if !early && exists x :: IsOldest(documents, left, x) && x != d {
      e :| IsOldest(documents, left, e) && e != d;
    } else {
      e :| IsOldest(documents, left, e);
    }
  }

  /** What the choice comes to: among rows finished at the same instant, `d` is taken first, or last. */
  ghost predicate Biased(documents: map<DocId, Row>, ids: seq<DocId>, left: set<DocId>, d: DocId, early: bool)
    requires d in documents && documents[d].processedAt.Some?
  {
    && (early && d in left ==> forall e :: e in ids ==> e in Older(documents, d))
    && (!early && d in ids ==> NotYounger(documents, d) !! left)
  }

  lemma {:induction false} BiasedSweep(documents: map<DocId, Row>, cutoff: Time, ids: seq<DocId>, left: set<DocId>, d: DocId,
                                       early: bool) returns (r: seq<DocId>)
    requires Sweeping(documents, cutoff, ids, left) && Expired(documents, d, cutoff) && Biased(documents, ids, left, d, early)
    ensures IsSweep(documents, cutoff, r)
    ensures early && d !in r ==> |Older(documents, d)| >= SWEEP_LIMIT
    ensures !early && d in r ==> |NotYounger(documents, d)| <= SWEEP_LIMIT
    decreases left
  {
    if left != {} && |ids| < SWEEP_LIMIT {
      var e := PickExists(documents, left, d, early);
      TakeOldest(documents, cutoff, ids, left, e);
      StaysBiased(documents, cutoff, ids, left, d, early, e);
      r := BiasedSweep(documents, cutoff, ids + [e], left - {e}, d, early);
    } else {
      r := ids;
      SweepingIsSweep(documents, cutoff, ids, left);
      DistinctCount(ids);
      BiasedCounts(documents, cutoff, ids, left, d, early);
    }
  }

  lemma StaysBiased(documents: map<DocId, Row>, cutoff: Time, ids: seq<DocId>, left: set<DocId>, d: DocId, early: bool, e: DocId)
    requires Sweeping(documents, cutoff, ids, left) && Expired(documents, d, cutoff) && Biased(documents, ids, left, d, early)
    requires Picks(documents, left, d, early, e)
    ensures Biased(documents, ids + [e], left - {e}, d, early)
  {
    if early && d in left - {e} {
      assert documents[e].processedAt.value < documents[d].processedAt.value;
    }
    if !early && e == d {
      forall x | x in NotYounger(documents, d) && x in left ensures x == d {
        assert IsOldest(documents, left, x);
      }
    }
  }

  lemma BiasedCounts(documents: map<DocId, Row>, cutoff: Time, ids: seq<DocId>, left: set<DocId>, d: DocId, early: bool)
    requires Sweeping(documents, cutoff, ids, left) && Expired(documents, d, cutoff) && Biased(documents, ids, left, d, early)
    requires left == {} || |ids| == SWEEP_LIMIT
    ensures early && d !in ids ==> |Older(documents, d)| >= SWEEP_LIMIT
    ensures !early && d in ids ==> |NotYounger(documents, d)| <= SWEEP_LIMIT
  {
    DistinctCount(ids);
    var expired := set e | e in documents && Expired(documents, e, cutoff);
    assert Members(ids) + left == expired && d in expired;
    if early && d !in ids {
      assert d !in Members(ids);
      assert Members(ids) <= Older(documents, d);
      SubsetCount(Members(ids), Older(documents, d));
    }
    if !early && d in ids {
      assert NotYounger(documents, d) <= expired;
      assert NotYounger(documents, d) <= Members(ids);
      SubsetCount(NotYounger(documents, d), Members(ids));
    }
  }

  lemma StartsBiased(documents: map<DocId, Row>, cutoff: Time, d: DocId, early: bool) returns (ids: seq<DocId>)
    requires Expired(documents, d, cutoff)
    ensures IsSweep(documents, cutoff, ids)
    ensures early && d !in ids ==> |Older(documents, d)| >= SWEEP_LIMIT
    ensures !early && d in ids ==> |NotYounger(documents, d)| <= SWEEP_LIMIT
  {
    var expired := set e | e in documents && Expired(documents, e, cutoff);
    assert Members([]) == {};
    ids := BiasedSweep(documents, cutoff, [], expired, d, early);
  }

  /** Some answer of the query lists an expired row exactly when fewer than a hundred rows were finished before it. */
  lemma SweepMayReachIff(documents: map<DocId, Row>, cutoff: Time, d: DocId)
    requires Expired(documents, d, cutoff)
    ensures (exists ids :: IsSweep(documents, cutoff, ids) && d in ids) <==> |Older(documents, d)| < SWEEP_LIMIT
  {
    if |Older(documents, d)| < SWEEP_LIMIT {
      var ids := StartsBiased(documents, cutoff, d, true);
    } else {
      forall ids | IsSweep(documents, cutoff, ids) ensures d !in ids {
        if d in ids { ReachedHasFewOlder(documents, cutoff, ids, d); }
      }
    }
  }

  /** Every answer lists it exactly when at most a hundred rows were finished by then, it included. */
  lemma SweepMustReachIff(documents: map<DocId, Row>, cutoff: Time, d: DocId)
    requires Expired(documents, d, cutoff)
    ensures (forall ids :: IsSweep(documents, cutoff, ids) ==> d in ids) <==> |NotYounger(documents, d)| <= SWEEP_LIMIT
  {
    if |NotYounger(documents, d)| <= SWEEP_LIMIT {
      forall ids | IsSweep(documents, cutoff, ids) ensures d in ids {
        if d !in ids { MissedHasManyOlder(documents, cutoff, ids, d); }
      }
    } else {
      var ids := StartsBiased(documents, cutoff, d, false);
      assert d !in ids;
    }
  }

  /** A purge does not change what the next sweep sees. */
  lemma PurgeKeepsSweeps(documents: map<DocId, Row>, purged: seq<DocId>, now: Time, cutoff: Time, ids: seq<DocId>)
    ensures IsSweep(Purged(documents, purged, now), cutoff, ids) <==> IsSweep(documents, cutoff, ids)
  {
    var after := Purged(documents, purged, now);
    assert forall d :: Expired(after, d, cutoff) <==> Expired(documents, d, cutoff);
    assert (set d | d in after && Expired(after, d, cutoff)) == (set d | d in documents && Expired(documents, d, cutoff));
  }
}
