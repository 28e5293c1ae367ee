/** The posting rows that app/services/job_dedup.py and one_off/backfill_dedup_keys.py read
    and write: finding a row's primary, claiming a group, the backfill loop, and the grouping
    step of a live rescan (app/services/jobs.py). */
module PostingTable {
  import opened Base
  import opened JobDedup

  type Id = nat

  datatype Posting = Posting(
    id: Id, companyName: Option<string>, title: Option<string>,
    companyKey: Option<string>, titleKey: Option<string>,
    success: bool, closed: bool, primary: Option<Id>, site: Site)

  /** normalize_company_name and normalize_title, left arbitrary. */
  datatype Normalizer = Normalizer(
    company: Option<string> -> Option<string>, title: Option<string> -> Option<string>)

  function Keyed(p: Posting, n: Normalizer): Posting {
    p.(companyKey := n.company(p.companyName), titleKey := n.title(p.title))
  }

  predicate SameJob(a: Posting, b: Posting) {
    && a.companyKey.Some? && a.titleKey.Some?
    && a.companyKey == b.companyKey && a.titleKey == b.titleKey
    && SamePlace(a.site, b.site)
  }

  /** A row find_duplicate_primary may return for p: visible, canonical and the same job. */
  predicate Candidate(p: Posting, c: Posting) {
    && c.id != p.id && c.primary.None? && c.success && !c.closed
    && SameJob(p, c)
  }

  ghost predicate Distinct(rows: seq<Posting>) {
    forall i, j :: 0 <= i < j < |rows| ==> rows[i].id != rows[j].id
  }

  /** The id of the row that lists this posting: its own, or its primary's. */
  function Head(p: Posting): Id {
    if p.primary.Some? then p.primary.value else p.id
  }

  /** Groups are one level deep: whatever a row points at is a primary of the table. */
  ghost predicate Flat(rows: seq<Posting>) {
    forall i :: 0 <= i < |rows| && rows[i].primary.Some? ==>
                  exists h :: 0 <= h < |rows| && rows[h].id == rows[i].primary.value && rows[h].primary.None?
  }

  predicate PointsAt(rows: seq<Posting>, id: Id) {
    exists i :: 0 <= i < |rows| && rows[i].primary == Some(id)
  }

  /** Two tables with the same postings, apart from keys and pointers. */
  ghost predicate SamePostings(a: seq<Posting>, b: seq<Posting>) {
    && |a| == |b|
    && forall i :: 0 <= i < |a| ==>
         b[i] == a[i].(companyKey := b[i].companyKey, titleKey := b[i].titleKey, primary := b[i].primary)
  }

  function Scanned(rows: seq<Posting>): nat {
    if rows == [] then 0 else Scanned(rows[..|rows| - 1]) + if rows[|rows| - 1].success then 1 else 0
  }

  /** Where a run limited to `limit` scanned postings stops; 0 is no limit. */
  ghost predicate Reaches(rows: seq<Posting>, limit: nat, stop: nat) {
    && stop <= |rows|
    && (limit > 0 ==> Scanned(rows[..stop]) <= limit)
    && (stop < |rows| ==> limit > 0 && Scanned(rows[..stop]) == limit)
  }

  /** The first candidate in the table's order, oldest URL first. */
  ghost predicate FirstCandidate(rows: seq<Posting>, p: Posting, found: Option<Id>) {
    if found.None? then forall j :: 0 <= j < |rows| ==> !Candidate(p, rows[j])
    else exists j :: 0 <= j < |rows| && rows[j].id == found.value && Candidate(p, rows[j])
                     && forall l :: 0 <= l < j ==> !Candidate(p, rows[l])
  }

  /** job_postings joined to their URLs, in created_at order. */
  class Table {
    var rows: seq<Posting>

    constructor (rows: seq<Posting>)
      ensures this.rows == rows
    {
      this.rows := rows;
    }

    method FindDuplicatePrimary(p: Posting) returns (found: Option<Id>)
      ensures FirstCandidate(rows, p, found)
    {
      found := None;
      if p.companyKey.None? || p.titleKey.None? || p.site.key == {} {
        return;
      }
      for j := 0 to |rows|
        invariant forall l :: 0 <= l < j ==> !Candidate(p, rows[l])
      {
        var c := rows[j];
        if c.companyKey == p.companyKey && c.titleKey == p.titleKey && c.primary.None? && c.id != p.id
           && c.success && !c.closed
        {
          if SamePlace(p.site, c.site) {
            return Some(c.id);
          }
        }
      }
    }

    /** claim_primary: the row at `k` takes over the group `primaryId` heads. Flatness needs
        nothing of `primaryId`, and nothing of where row `k` pointed before. */
    method ClaimPrimary(k: nat, primaryId: Id)
      requires k < |rows| && Distinct(rows)
      modifies this
      ensures SamePostings(old(rows), rows)
      ensures forall i :: 0 <= i < |rows| ==>
                rows[i] == old(rows)[i].(primary :=
                  if i == k then None
                  else if old(rows)[i].id == primaryId || old(rows)[i].primary == Some(primaryId) then Some(old(rows)[k].id)
                  else old(rows)[i].primary)
      ensures Flat(old(rows)[k := old(rows)[k].(primary := None)]) ==> Flat(rows)
    {
      var me := rows[k].id;
      var before := rows;
      for i := 0 to |before|
        invariant |rows| == |before|
        invariant forall l :: i <= l < |rows| ==> rows[l] == before[l]
        invariant forall l :: 0 <= l < i ==>
                    rows[l] == before[l].(primary :=
                      if l != k && (before[l].id == primaryId || before[l].primary == Some(primaryId)) then Some(me)
                      else before[l].primary)
      {
        if (rows[i].id == primaryId || rows[i].primary == Some(primaryId)) && rows[i].id != me {
          rows := rows[i := rows[i].(primary := Some(me))];
        }
      }
      rows := rows[k := rows[k].(primary := None)];
      if Flat(before[k := before[k].(primary := None)]) {
        ClaimKeepsFlat(before, k, primaryId, rows);
      }
    }

    /** The backfill's loop: key each scanned posting, oldest first, and group it with what is
        keyed already. `limit` 0 means no limit. */
    method Backfill(n: Normalizer, limit: nat, dryRun: bool)
      requires Distinct(rows)
      requires forall i :: 0 <= i < |rows| ==> rows[i].companyKey.None? && rows[i].titleKey.None? && rows[i].primary.None?
      modifies this
      ensures SamePostings(old(rows), rows)
      ensures dryRun ==> rows == old(rows)
      ensures !dryRun ==> exists stop: nat :: Backfilled(n, old(rows), rows, stop) && Reaches(old(rows), limit, stop)
      ensures Flat(rows)
    {
      var count := 0;
      var i := 0;
      while i < |rows| && (limit == 0 || count < limit)
        invariant 0 <= i <= |rows| && (dryRun ==> rows == old(rows))
        invariant !dryRun ==> Backfilled(n, old(rows), rows, i)
        invariant SamePostings(old(rows), rows)
        invariant count == Scanned(old(rows)[..i]) && (limit == 0 || count <= limit)
      {
        assert old(rows)[..i + 1][..i] == old(rows)[..i];
        if rows[i].success {
          count := count + 1;
          if !dryRun {
            ghost var before := rows;
            rows := rows[i := Keyed(rows[i], n)];
            var found := FindDuplicatePrimary(rows[i]);
            rows := rows[i := rows[i].(primary := found)];
            BackfillStep(n, old(rows), before, i, found, rows);
          }
        }
        i := i + 1;
      }
      assert Reaches(old(rows), limit, i) by { assert old(rows)[..i] == old(rows) || i < |rows|; }
      if !dryRun {
        BackfillFlat(n, old(rows), rows, i);
      }
    }

    /** The grouping step of _upsert_posting on the row at `k`, whose keys this scan has just
        computed. `outranked` is the test that the row found is not from an official source. */
    method RescanGrouping(k: nat, official: bool, complete: bool, outranked: Id -> bool)
      returns (claimed: bool, found: Option<Id>)
      requires k < |rows| && Distinct(rows) && Flat(rows)
      modifies this
      ensures SamePostings(old(rows), rows)
      ensures FirstCandidate(old(rows), old(rows)[k], found)
      ensures claimed == (found.Some? && official && complete && outranked(found.value))
      ensures !claimed ==> rows == old(rows)[k := old(rows)[k].(primary := found)]
      ensures claimed ==> rows[k].primary.None?
      ensures claimed ==> forall i :: 0 <= i < |rows| && Head(old(rows)[i]) == found.value ==> Head(rows[i]) == rows[k].id
      ensures Flat(rows) <==> claimed || rows[k].primary.None? || !PointsAt(old(rows), old(rows)[k].id)
    {
      found := FindDuplicatePrimary(rows[k]);
      claimed := official && complete && found.Some? && outranked(found.value);
      rows := rows[k := rows[k].(primary := found)];
      if claimed {
        assert rows[k := rows[k].(primary := None)] == old(rows)[k := old(rows)[k].(primary := None)];
        NullKeepsFlat(old(rows), k);
        ClaimPrimary(k, found.value);
      } else {
        PointingKeepsFlat(old(rows), k, found);
      }
    }
  }

  /** What the backfill has done by position `stop`: each scanned row before it is keyed and
      points at the first earlier row it duplicates, and everything else is untouched. */
  ghost predicate Backfilled(n: Normalizer, before: seq<Posting>, after: seq<Posting>, stop: nat) {
    && |after| == |before| && stop <= |before|
    && (forall i :: 0 <= i < |before| && (stop <= i || !before[i].success) ==> after[i] == before[i])
    && (forall i :: 0 <= i < stop && before[i].success ==>
          && after[i] == before[i].(companyKey := n.company(before[i].companyName), titleKey := n.title(before[i].title),
                                    primary := after[i].primary)
          && FirstCandidate(after[..i], after[i], after[i].primary))
  }

  lemma {:induction false} BackfillStep(
    n: Normalizer, start: seq<Posting>, before: seq<Posting>, i: nat, found: Option<Id>, after: seq<Posting>)
    requires Distinct(start) && SamePostings(start, before) && i < |before| && before[i].success
    requires forall l :: 0 <= l < |start| ==> start[l].companyKey.None? && start[l].primary.None?
    requires Backfilled(n, start, before, i)
    requires var keyed := before[i := Keyed(before[i], n)];
             FirstCandidate(keyed, keyed[i], found) && after == keyed[i := keyed[i].(primary := found)]
    ensures Backfilled(n, start, after, i + 1)
  {
    var keyed := before[i := Keyed(before[i], n)];
    forall l | 0 <= l < |after| && (i < l || !start[l].success)
      ensures after[l] == start[l]
    {
    }
    assert forall l :: i <= l < |keyed| ==> !Candidate(keyed[i], keyed[l]);
    assert after[..i] == keyed[..i] == before[..i];
    assert Candidate(after[i], after[i]) == false;
    forall l | 0 <= l < |keyed|
      ensures Candidate(after[i], keyed[l]) <==> Candidate(keyed[i], keyed[l])
    {
    }
    if found.Some? {
      var j :| 0 <= j < |keyed| && keyed[j].id == found.value && Candidate(keyed[i], keyed[j])
               && forall l :: 0 <= l < j ==> !Candidate(keyed[i], keyed[l]);
      assert j < i;
      assert after[..i][j] == keyed[j];
      assert FirstCandidate(after[..i], after[i], found);
    }
    forall l | 0 <= l < i && start[l].success
      ensures FirstCandidate(after[..l], after[l], after[l].primary)
    {
      assert after[..l] == before[..l];
    }
  }

  /** Every duplicate the backfill makes points at an earlier row: scanned, open, a primary,
      with its keys and at its place. */
  lemma {:induction false} BackfillPointsBack(n: Normalizer, before: seq<Posting>, after: seq<Posting>, stop: nat, i: nat)
    returns (j: nat)
    requires Backfilled(n, before, after, stop) && i < |after|
    requires forall l :: 0 <= l < |before| ==> before[l].primary.None?
    requires after[i].primary.Some?
    ensures j < i && after[j].id == after[i].primary.value
    ensures after[j].primary.None? && after[j].success && !after[j].closed && SameJob(after[i], after[j])
    ensures before[j].success && forall l :: 0 <= l < j ==> !Candidate(after[i], after[l])
  {
    j :| 0 <= j < i && after[..i][j].id == after[i].primary.value && Candidate(after[i], after[..i][j])
         && forall l :: 0 <= l < j ==> !Candidate(after[i], after[..i][l]);
    forall l | 0 <= l < j
      ensures !Candidate(after[i], after[l])
    {
      assert after[..i][l] == after[l];
    }
  }

  lemma {:induction false} BackfillFlat(n: Normalizer, before: seq<Posting>, after: seq<Posting>, stop: nat)
    requires Backfilled(n, before, after, stop)
    requires forall l :: 0 <= l < |before| ==> before[l].primary.None?
    ensures Flat(after)
  {
    forall i | 0 <= i < |after| && after[i].primary.Some?
      ensures exists h :: 0 <= h < |after| && after[h].id == after[i].primary.value && after[h].primary.None?
    {
      var j := BackfillPointsBack(n, before, after, stop, i);
    }
  }

  lemma {:induction false} ClaimKeepsFlat(before: seq<Posting>, k: nat, primaryId: Id, after: seq<Posting>)
    requires k < |before| == |after| && Distinct(before)
    requires forall i :: 0 <= i < |after| ==>
               after[i] == before[i].(primary :=
                 if i == k then None
                 else if before[i].id == primaryId || before[i].primary == Some(primaryId) then Some(before[k].id)
                 else before[i].primary)
    requires Flat(before[k := before[k].(primary := None)])
    ensures Flat(after)
  {
    var cleared := before[k := before[k].(primary := None)];
    forall i | 0 <= i < |after| && after[i].primary.Some?
      ensures exists h :: 0 <= h < |after| && after[h].id == after[i].primary.value && after[h].primary.None?
    {
      if after[i].primary == Some(before[k].id) {
        assert after[k].primary.None?;
      } else {
        assert cleared[i].primary == after[i].primary;
        var h :| 0 <= h < |cleared| && cleared[h].id == cleared[i].primary.value && cleared[h].primary.None?;
        assert after[h].primary.None?;
      }
    }
  }

  /** On a flat table, the claim merges exactly the two groups, under the claiming row. */
  lemma {:induction false} ClaimMergesTwoGroups(before: seq<Posting>, k: nat, primaryId: Id, after: seq<Posting>, i: nat)
    requires k < |before| == |after| && Distinct(before) && Flat(before) && i < |before|
    requires exists h :: 0 <= h < |before| && before[h].id == primaryId && before[h].primary.None?
    requires forall l :: 0 <= l < |after| ==>
               after[l] == before[l].(primary :=
                 if l == k then None
                 else if before[l].id == primaryId || before[l].primary == Some(primaryId) then Some(before[k].id)
                 else before[l].primary)
    ensures Head(after[i]) == before[k].id <==>
            i == k || Head(before[i]) == primaryId || Head(before[i]) == before[k].id
    ensures Head(after[i]) != before[k].id ==> after[i] == before[i]
  {
  }

  lemma {:induction false} NullKeepsFlat(rows: seq<Posting>, k: nat)
    requires k < |rows| && Flat(rows)
    ensures Flat(rows[k := rows[k].(primary := None)])
  {
    var out := rows[k := rows[k].(primary := None)];
    forall i | 0 <= i < |out| && out[i].primary.Some?
      ensures exists h :: 0 <= h < |out| && out[h].id == out[i].primary.value && out[h].primary.None?
    {
      var h :| 0 <= h < |rows| && rows[h].id == rows[i].primary.value && rows[h].primary.None?;
      assert out[h].primary.None?;
    }
  }

  /** Pointing a row at what find_duplicate_primary found keeps groups flat exactly when it
      found nothing or no duplicate points at the row. */
  lemma {:induction false} PointingKeepsFlat(rows: seq<Posting>, k: nat, found: Option<Id>)
    requires k < |rows| && Distinct(rows) && Flat(rows) && FirstCandidate(rows, rows[k], found)
    ensures Flat(rows[k := rows[k].(primary := found)]) <==> found.None? || !PointsAt(rows, rows[k].id)
  {
    var out := rows[k := rows[k].(primary := found)];
    if found.None? {
      NullKeepsFlat(rows, k);
    } else if i :| 0 <= i < |rows| && rows[i].primary == Some(rows[k].id) {
      var h :| 0 <= h < |rows| && rows[h].id == rows[k].id && rows[h].primary.None?;
      assert h == k;
      assert i != k;
      assert out[i].primary == Some(rows[k].id);
      assert forall l :: 0 <= l < |out| && out[l].id == rows[k].id ==> l == k;
    } else {
      forall i | 0 <= i < |out| && out[i].primary.Some?
        ensures exists h :: 0 <= h < |out| && out[h].id == out[i].primary.value && out[h].primary.None?
      {
        if i == k {
          var j :| 0 <= j < |rows| && rows[j].id == found.value && Candidate(rows[k], rows[j]);
          assert out[j] == rows[j];
        } else {
          var h :| 0 <= h < |rows| && rows[h].id == rows[i].primary.value && rows[h].primary.None?;
          assert out[h] == rows[h];
        }
      }
    }
  }

  /** So a rescan can chain groups: a row that heads one is found to repeat an older posting. */
  lemma {:induction false} RescanMayChain()
    ensures exists rows: seq<Posting>, k: nat, found: Option<Id> ::
              && k < |rows| && Distinct(rows) && Flat(rows) && FirstCandidate(rows, rows[k], found)
              && !Flat(rows[k := rows[k].(primary := found)])
  {
    var site := Site({"austin, tx"}, [], "acme.com");
    var older := Posting(0, None, None, Some("acme"), Some("cashier"), true, false, None, site);
    var head := older.(id := 1);
    var dup := older.(id := 2, primary := Some(1));
    var rows := [older, head, dup];
    assert rows[1] == head && rows[2] == dup;
    assert "austin, tx" in site.key;
    assert Candidate(head, rows[0]);
    PointingKeepsFlat(rows, 1, Some(0));
    assert rows[2].primary == Some(rows[1].id);
  }
}
