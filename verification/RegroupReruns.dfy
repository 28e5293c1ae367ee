/** Rows outside the matching, and running regroup again on its own result
    (one_off/redo_dedup.py:21, 91-129). */
module RegroupReruns {
  import opened Base
  import opened Sorting
  import opened JobDedup
  import opened Regroup
  import opened RegroupLaws

  // ---------------------------------------------------------------- total and flat

  /** A row outside the matching points, if at all, at a row of the company that is matched or
      is its own primary. */
  ghost predicate OneLevel(rows: seq<Row>) {
    forall u :: u in rows && !Matched(u) && u.primary.Some? ==>
                  exists t :: t in rows && t.id == u.primary.value && (Matched(t) || t.primary.None?)
  }

  lemma {:induction false} FollowKeys(rows: seq<Row>, m: Links, id: Id)
    ensures id in Follow(rows, m) <==> id in m || exists r :: r in rows && !Matched(r) && r.id == id
  {
    if rows != [] {
      var n := |rows| - 1;
      FollowKeys(rows[..n], m, id);
      assert rows == rows[..n] + [rows[n]];
    }
  }

  /** Every input id gets one entry, and nothing else does. */
  lemma {:induction false} RegroupTotal(rows: seq<Row>, id: Id)
    requires DistinctIds(rows)
    ensures id in Regrouped(rows) <==> exists r :: r in rows && r.id == id
  {
    MatchingAt(rows, rows);
    FollowKeys(rows, Matching(rows, rows), id);
  }

  /** The entry Follow gives `u`, once the walk has passed it. */
  lemma {:induction false} FollowAt(rows: seq<Row>, n: nat, u: Row)
    requires DistinctIds(rows) && OneLevel(rows) && n <= |rows| && u in rows && !Matched(u)
    ensures var m := Matching(rows, rows);
            && u.id in Follow(rows[..n], m)
            && Follow(rows[..n], m)[u.id] == if u in rows[..n] then Repointed(m, u.primary) else None
  {
    if n == 0 {
      MatchingAt(rows, rows);
      assert rows[..n] == [];
    } else {
      FollowAt(rows, n - 1, u);
      FollowStep(rows, n - 1, Matching(rows, rows));
      if rows[n - 1].id == u.id {
        SameRow(rows, rows[n - 1], u);
        RepointedSame(rows, n - 1, u);
      } else {
        assert rows[..n] == rows[..n - 1] + [rows[n - 1]];
      }
    }
  }

  lemma {:induction false} FollowStep(rows: seq<Row>, n: nat, m: Links)
    requires n < |rows|
    ensures rows[n] in rows[..n + 1]
    ensures Follow(rows[..n + 1], m) ==
            if Matched(rows[n]) then Follow(rows[..n], m)
            else Follow(rows[..n], m)[rows[n].id := Repointed(Follow(rows[..n], m), rows[n].primary)]
  {
    assert rows[..n + 1][..n] == rows[..n];
    assert rows[..n + 1][n] == rows[n];
  }

  lemma {:induction false} RepointedSame(rows: seq<Row>, n: nat, u: Row)
    requires DistinctIds(rows) && OneLevel(rows) && n < |rows| && u == rows[n] && !Matched(u)
    ensures Repointed(Follow(rows[..n], Matching(rows, rows)), u.primary) == Repointed(Matching(rows, rows), u.primary)
  {
    if u.primary.Some? {
      assert u in rows;
      var t :| t in rows && t.id == u.primary.value && (Matched(t) || t.primary.None?);
      if Matched(t) {
        MatchedStays(rows, n, t);
      } else {
        NullStays(rows, n, t);
        NullStays(rows, 0, t);
        assert rows[..0] == [];
      }
    }
  }

  lemma {:induction false} MatchedStays(rows: seq<Row>, n: nat, t: Row)
    requires DistinctIds(rows) && n <= |rows| && t in rows && Matched(t)
    ensures t.id in Follow(rows[..n], Matching(rows, rows)) <==> t.id in Matching(rows, rows)
    ensures t.id in Matching(rows, rows) ==> Follow(rows[..n], Matching(rows, rows))[t.id] == Matching(rows, rows)[t.id]
  {
    forall q | q in rows[..n] && q.id == t.id
      ensures Matched(q)
    {
      SameRow(rows, q, t);
    }
    FollowKeeps(rows[..n], Matching(rows, rows), t.id);
  }

  lemma {:induction false} NullStays(rows: seq<Row>, n: nat, t: Row)
    requires DistinctIds(rows) && n <= |rows| && t in rows && !Matched(t) && t.primary.None?
    ensures t.id in Follow(rows[..n], Matching(rows, rows))
    ensures Follow(rows[..n], Matching(rows, rows))[t.id] == None
  {
    MatchingAt(rows, rows);
    if n == 0 {
      assert rows[..n] == [];
    } else {
      assert rows[..n][..n - 1] == rows[..n - 1];
      NullStays(rows, n - 1, t);
      if rows[n - 1].id == t.id {
        SameRow(rows, rows[n - 1], t);
      }
    }
  }

  /** What an unmatched row ends with: nothing, its old group's new primary, or its old pointer. */
  lemma {:induction false} UnmatchedResult(rows: seq<Row>, u: Row)
    requires DistinctIds(rows) && OneLevel(rows) && u in rows && !Matched(u)
    ensures u.id in Regrouped(rows)
    ensures u.primary.None? ==> Regrouped(rows)[u.id] == None
    ensures u.primary.Some? ==> u.primary.value in Regrouped(rows)
    ensures u.primary.Some? ==>
              (Regrouped(rows)[u.id] == if Regrouped(rows)[u.primary.value].Some?
                                        then Regrouped(rows)[u.primary.value] else u.primary)
  {
    var m := Matching(rows, rows);
    assert rows[..|rows|] == rows;
    FollowAt(rows, |rows|, u);
    MatchingAt(rows, rows);
    if u.primary.Some? {
      var t :| t in rows && t.id == u.primary.value && (Matched(t) || t.primary.None?);
      if Matched(t) {
        MatchedResult(rows, t);
      } else {
        NullStays(rows, |rows|, t);
      }
    }
  }

  ghost predicate Flat(m: Links) {
    forall id :: id in m && m[id].Some? ==> m[id].value in m && m[m[id].value] == None
  }

  lemma {:induction false} MatchedFlat(rows: seq<Row>, r: Row)
    requires DistinctIds(rows) && r in rows && Matched(r) && r.id in Regrouped(rows) && Regrouped(rows)[r.id].Some?
    ensures Regrouped(rows)[r.id].value in Regrouped(rows)
    ensures Regrouped(rows)[Regrouped(rows)[r.id].value] == None
  {
    RegroupIsGreedy(rows, r);
  }

  /** Nothing points at a row that is itself a duplicate, rows outside the matching included. */
  lemma {:induction false} RegroupFlat(rows: seq<Row>)
    requires DistinctIds(rows) && OneLevel(rows)
    ensures Flat(Regrouped(rows))
  {
    var m := Regrouped(rows);
    forall id | id in m && m[id].Some?
      ensures m[id].value in m && m[m[id].value] == None
    {
      RegroupTotal(rows, id);
      var r :| r in rows && r.id == id;
      if Matched(r) {
        MatchedFlat(rows, r);
      } else {
        UnmatchedResult(rows, r);
        var t :| t in rows && t.id == r.primary.value && (Matched(t) || t.primary.None?);
        if Matched(t) && m[t.id].Some? {
          MatchedFlat(rows, t);
        } else if !Matched(t) {
          UnmatchedResult(rows, t);
        }
      }
    }
  }

  /** What a scanned row points at was scanned too, has its title, and points nowhere. */
  lemma {:induction false} ScannedTarget(rows: seq<Row>, r: Row, p: Row)
    requires DistinctIds(rows) && r in rows && p in rows && r.success && r.title.Some?
    requires r.id in Regrouped(rows) && Regrouped(rows)[r.id] == Some(p.id)
    ensures p.success && p.title == r.title && p.id != r.id
    ensures p.id in Regrouped(rows) && Regrouped(rows)[p.id] == None
  {
    RegroupIsGreedy(rows, r);
    var q :| Claims(rows, Regrouped(rows), q, r) && q.id == p.id;
    SameRow(rows, p, q);
  }

  /** A row not successfully scanned, or without a title, becomes nobody's primary: a scanned row
      points at a scanned one, and any other row at its old pointer or at a scanned one. */
  lemma {:induction false} NewPrimaryIsScanned(rows: seq<Row>, r: Row, p: Row)
    requires DistinctIds(rows) && OneLevel(rows) && r in rows && p in rows
    requires r.id in Regrouped(rows) && Regrouped(rows)[r.id] == Some(p.id)
    ensures (r.success && r.title.Some?) || r.primary != Some(p.id) ==> p.success && p.title.Some? && p.id != r.id
  {
    if Matched(r) {
      ScannedTarget(rows, r, p);
    } else {
      UnmatchedResult(rows, r);
      var t :| t in rows && t.id == r.primary.value && (Matched(t) || t.primary.None?);
      if !Matched(t) {
        UnmatchedResult(rows, t);
      } else if r.primary != Some(p.id) {
        ScannedTarget(rows, t, p);
      }
    }
  }

  // ---------------------------------------------------------------- writing the result back

  function Write1(r: Row, m: Links): Row {
    if r.id in m then r.(primary := m[r.id]) else r
  }

  /** The rows with the run's pointers written to them. */
  function Write(rows: seq<Row>, m: Links): (out: seq<Row>)
    ensures |out| == |rows|
    ensures forall i :: 0 <= i < |rows| ==> out[i] == Write1(rows[i], m)
  {
    seq(|rows|, i requires 0 <= i < |rows| => Write1(rows[i], m))
  }

  function Rerun(rows: seq<Row>): seq<Row> {
    Write(rows, Regrouped(rows))
  }

  lemma {:induction false} WriteMembers(rows: seq<Row>, m: Links)
    ensures forall r :: r in rows ==> Write1(r, m) in Write(rows, m)
    ensures forall w :: w in Write(rows, m) ==> exists r :: r in rows && Write1(r, m) == w
    ensures DistinctIds(rows) ==> DistinctIds(Write(rows, m))
  {
    var out := Write(rows, m);
    forall r | r in rows
      ensures Write1(r, m) in out
    {
      var i :| 0 <= i < |rows| && rows[i] == r;
      assert out[i] == Write1(r, m);
    }
    forall w | w in out
      ensures exists r :: r in rows && Write1(r, m) == w
    {
      var i :| 0 <= i < |out| && out[i] == w;
      assert rows[i] in rows;
    }
  }

  lemma {:induction false} RerunOneLevel(rows: seq<Row>)
    requires DistinctIds(rows) && OneLevel(rows)
    ensures OneLevel(Rerun(rows))
  {
    var m := Regrouped(rows);
    var out := Rerun(rows);
    WriteMembers(rows, m);
    RegroupFlat(rows);
    forall u | u in out && !Matched(u) && u.primary.Some?
      ensures exists t :: t in out && t.id == u.primary.value && (Matched(t) || t.primary.None?)
    {
      var r :| r in rows && Write1(r, m) == u;
      UnmatchedResult(rows, r);
      RegroupTotal(rows, m[r.id].value);
      var t :| t in rows && t.id == m[r.id].value;
      assert Write1(t, m) in out;
    }
  }

  // ---------------------------------------------------------------- tables regroup leaves grouped as they are

  /** Primaries as the table has them now, apart from the result of any run. */
  predicate Primary(r: Row) {
    Matched(r) && r.primary.None?
  }

  /** A primary of no lower class at r's place: one the next run puts ahead of r. */
  ghost predicate Rival(rows: seq<Row>, q: Row, r: Row) {
    && q in rows && Primary(q) && q.title == r.title && q.id != r.id
    && Class(q) <= Class(r)
    && SamePlace(q.site, r.site)
  }

  /** r would sooner join q than p, by place and then by class and age; old pointers play no part. */
  predicate Prefers(r: Row, q: Row, p: Row) {
    || Slot(r, q) < Slot(r, p)
    || (Slot(r, q) == Slot(r, p) && (Class(q) < Class(p) || (Class(q) == Class(p) && Older(q, p) && q.id != p.id)))
  }

  /** No two primaries of a title are at one place. */
  ghost predicate PrimariesAreApart(rows: seq<Row>) {
    forall p, q :: p in rows && q in rows && Primary(p) && Primary(q) && p.title == q.title && p.id != q.id ==>
                     !SamePlace(p.site, q.site)
  }

  /** Every duplicate has a rival to be the duplicate of. */
  ghost predicate DuplicatesHaveRivals(rows: seq<Row>) {
    forall r :: r in rows && Matched(r) && r.primary.Some? ==> exists q :: Rival(rows, q, r)
  }

  ghost predicate Grouped(rows: seq<Row>) {
    PrimariesAreApart(rows) && DuplicatesHaveRivals(rows)
  }

  lemma {:induction false} IndexBefore(b: seq<Row>, i: nat, p: Row) returns (j: nat)
    requires DistinctIds(b) && SortedBy(b, (x, y) => Ahead(x, y)) && i < |b|
    requires p in b && p.id != b[i].id && Ahead(p, b[i])
    ensures j < i && b[j] == p
  {
    j :| 0 <= j < |b| && b[j] == p;
    assert i < j ==> Ahead(b[i], b[j]);
  }

  /** In a grouped table every row keeps its standing, by induction on its position in its sorted
      bucket: the scan has met the primaries ahead of it before it. */
  lemma {:induction false} StandingAt(rows: seq<Row>, b: seq<Row>, i: nat)
    requires DistinctIds(rows) && Grouped(rows) && i < |b| && Matched(b[i])
    requires BucketOf(rows, b[i].title.value, b, Regrouped(rows))
    ensures b[i].id in Regrouped(rows) && (Regrouped(rows)[b[i].id].None? <==> b[i].primary.None?)
    decreases i
  {
    var m, r := Regrouped(rows), b[i];
    RegroupIsGreedy(rows, r);
    if r.primary.Some? {
      var q :| Rival(rows, q, r);
      RivalIsAhead(q, r);
      var j := IndexBefore(b, i, q);
      StandingAt(rows, b, j);
      assert Claims(rows, m, q, r);
    } else if m[r.id].Some? {
      var p :| Claims(rows, m, p, r) && m[r.id] == Some(p.id);
      var j := IndexBefore(b, i, p);
      StandingAt(rows, b, j);
    }
  }

  /** A primary of no lower class is sorted before a duplicate. */
  lemma {:induction false} RivalIsAhead(q: Row, r: Row)
    requires q.primary.None? && r.primary.Some? && Class(q) <= Class(r)
    ensures Ahead(q, r)
  {
  }

  lemma {:induction false} Standing(rows: seq<Row>, r: Row)
    requires DistinctIds(rows) && Grouped(rows) && r in rows && Matched(r)
    ensures r.id in Regrouped(rows) && (Regrouped(rows)[r.id].None? <==> r.primary.None?)
  {
    ResultBucket(rows, r.title.value);
    var b := Sorted(rows, r.title.value);
    SortedMembers(rows, r.title.value);
    var i :| 0 <= i < |b| && b[i] == r;
    StandingAt(rows, b, i);
  }

  /** In a grouped table what claims a duplicate are its rivals. */
  lemma {:induction false} ClaimsAreRivals(rows: seq<Row>, q: Row, r: Row)
    requires DistinctIds(rows) && Grouped(rows) && r in rows && Matched(r) && r.primary.Some?
    ensures Claims(rows, Regrouped(rows), q, r) <==> Rival(rows, q, r)
  {
    if q in rows && Matched(q) {
      Standing(rows, q);
    }
    if Rival(rows, q, r) {
      RivalIsAhead(q, r);
    }
  }

  /** Between two primaries, nearer is class and age. */
  lemma {:induction false} NearerIsPreferred(r: Row, p: Row, q: Row)
    requires p.primary.None? && q.primary.None? && Nearer(r, p, q)
    ensures !Prefers(r, q, p)
  {
  }

  /** A run over a grouped table sends each duplicate to the rival it prefers to every other. */
  lemma {:induction false} TargetIsPreferred(rows: seq<Row>, r: Row) returns (p: Row)
    requires DistinctIds(rows) && Grouped(rows) && r in rows && Matched(r) && r.primary.Some?
    ensures Rival(rows, p, r) && r.id in Regrouped(rows) && Regrouped(rows)[r.id] == Some(p.id)
    ensures forall q :: Rival(rows, q, r) ==> !Prefers(r, q, p)
  {
    var m := Regrouped(rows);
    Standing(rows, r);
    RegroupIsGreedy(rows, r);
    p :| Claims(rows, m, p, r) && m[r.id] == Some(p.id) && forall q :: Claims(rows, m, q, r) ==> Nearer(r, p, q);
    ClaimsAreRivals(rows, p, r);
    forall q | Rival(rows, q, r)
      ensures !Prefers(r, q, p)
    {
      ClaimsAreRivals(rows, q, r);
      NearerIsPreferred(r, p, q);
    }
  }

  // ---------------------------------------------------------------- exactly the tables it leaves alone

  /** The row a duplicate points at is a rival it prefers no other to. */
  ghost predicate WellPlaced(rows: seq<Row>, r: Row) {
    exists p :: Rival(rows, p, r) && r.primary == Some(p.id) && forall q :: Rival(rows, q, r) ==> !Prefers(r, q, p)
  }

  /** What can be checked on a table before a run: primaries apart, every duplicate with its preferred
      rival, and rows outside the matching pointing at rows that point nowhere. */
  ghost predicate Settled(rows: seq<Row>) {
    && PrimariesAreApart(rows)
    && (forall r :: r in rows && Matched(r) && r.primary.Some? ==> WellPlaced(rows, r))
    && (forall u :: u in rows && !Matched(u) && u.primary.Some? ==>
          exists t :: t in rows && t.id == u.primary.value && t.primary.None?)
  }

  /** Every row's pointer is what it was. */
  ghost predicate LeftAlone(rows: seq<Row>) {
    forall r :: r in rows ==> r.id in Regrouped(rows) && Regrouped(rows)[r.id] == r.primary
  }

  lemma {:induction false} OnlyOnePreferred(rows: seq<Row>, r: Row, p: Row, q: Row)
    requires DistinctIds(rows) && Rival(rows, p, r) && Rival(rows, q, r) && !Prefers(r, p, q) && !Prefers(r, q, p)
    ensures p == q
  {
    if p.id == q.id {
      SameRow(rows, p, q);
    }
  }

  lemma {:induction false} SettledMatched(rows: seq<Row>, r: Row)
    requires DistinctIds(rows) && Settled(rows) && r in rows && Matched(r)
    ensures r.id in Regrouped(rows) && Regrouped(rows)[r.id] == r.primary
  {
    SettledIsGrouped(rows);
    Standing(rows, r);
    if r.primary.Some? {
      assert WellPlaced(rows, r);
      var p :| Rival(rows, p, r) && r.primary == Some(p.id) && forall q :: Rival(rows, q, r) ==> !Prefers(r, q, p);
      var p' := TargetIsPreferred(rows, r);
      OnlyOnePreferred(rows, r, p, p');
    }
  }

  lemma {:induction false} SettledIsGrouped(rows: seq<Row>)
    requires Settled(rows)
    ensures Grouped(rows) && OneLevel(rows)
  {
    forall r | r in rows && Matched(r) && r.primary.Some?
      ensures exists q :: Rival(rows, q, r)
    {
      assert WellPlaced(rows, r);
    }
  }

  lemma {:induction false} SettledUnmatched(rows: seq<Row>, u: Row)
    requires DistinctIds(rows) && Settled(rows) && u in rows && !Matched(u)
    ensures u.id in Regrouped(rows) && Regrouped(rows)[u.id] == u.primary
  {
    SettledIsGrouped(rows);
    UnmatchedResult(rows, u);
    if u.primary.Some? {
      var t :| t in rows && t.id == u.primary.value && t.primary.None?;
      if Matched(t) {
        Standing(rows, t);
      } else {
        UnmatchedResult(rows, t);
      }
    }
  }

  /** A primary a run left alone, ahead of a duplicate it left alone. */
  lemma {:induction false} LeftAloneDuplicate(rows: seq<Row>, r: Row)
    requires DistinctIds(rows) && LeftAlone(rows) && r in rows && Matched(r) && r.primary.Some?
    ensures WellPlaced(rows, r)
  {
    var m := Regrouped(rows);
    RegroupIsGreedy(rows, r);
    var p :| Claims(rows, m, p, r) && m[r.id] == Some(p.id) && forall q :: Claims(rows, m, q, r) ==> Nearer(r, p, q);
    assert Rival(rows, p, r);
    forall q | Rival(rows, q, r)
      ensures !Prefers(r, q, p)
    {
      RivalIsAhead(q, r);
      assert Claims(rows, m, q, r);
      NearerIsPreferred(r, p, q);
    }
  }

  lemma {:induction false} LeftAloneUnmatched(rows: seq<Row>, u: Row)
    requires DistinctIds(rows) && OneLevel(rows) && LeftAlone(rows) && u in rows && !Matched(u) && u.primary.Some?
    ensures exists t :: t in rows && t.id == u.primary.value && t.primary.None?
  {
    var t :| t in rows && t.id == u.primary.value && (Matched(t) || t.primary.None?);
    UnmatchedResult(rows, u);
    RegroupFlat(rows);
    assert Regrouped(rows)[t.id] == t.primary;
  }

  /** Main result: on any table, with distinct ids and unmatched rows one level deep, a run changes
      nothing exactly when the table is settled. */
  lemma {:induction false} LeftAloneIffSettled(rows: seq<Row>)
    requires DistinctIds(rows) && OneLevel(rows)
    ensures LeftAlone(rows) <==> Settled(rows)
  {
    if Settled(rows) {
      forall r | r in rows
        ensures r.id in Regrouped(rows) && Regrouped(rows)[r.id] == r.primary
      {
        if Matched(r) {
          SettledMatched(rows, r);
        } else {
          SettledUnmatched(rows, r);
        }
      }
    }
    if LeftAlone(rows) {
      forall p, q | p in rows && q in rows && Primary(p) && Primary(q) && p.title == q.title && p.id != q.id
        ensures !SamePlace(p.site, q.site)
      {
        PrimariesApart(rows, p, q);
      }
      forall r | r in rows && Matched(r) && r.primary.Some?
        ensures WellPlaced(rows, r)
      {
        LeftAloneDuplicate(rows, r);
      }
      forall u | u in rows && !Matched(u) && u.primary.Some?
        ensures exists t :: t in rows && t.id == u.primary.value && t.primary.None?
      {
        LeftAloneUnmatched(rows, u);
      }
    }
  }

  // ---------------------------------------------------------------- a second and a third run

  /** Writing pointers changes nothing a rival is judged by. */
  lemma {:induction false} WrittenRival(rows: seq<Row>, m: Links, q: Row, r: Row)
    requires q in rows && q.id in m && m[q.id].None? && Matched(q) && q.title == r.title && q.id != r.id
    requires Class(q) <= Class(r) && SamePlace(q.site, r.site)
    ensures Rival(Write(rows, m), Write1(q, m), Write1(r, m))
  {
    WriteMembers(rows, m);
  }

  /** A run's result is grouped. */
  lemma {:induction false} RerunIsGrouped(rows: seq<Row>)
    requires DistinctIds(rows)
    ensures DistinctIds(Rerun(rows)) && Grouped(Rerun(rows))
  {
    var m, rows' := Regrouped(rows), Rerun(rows);
    WriteMembers(rows, m);
    forall p', q' | p' in rows' && q' in rows' && Primary(p') && Primary(q') && p'.title == q'.title && p'.id != q'.id
      ensures !SamePlace(p'.site, q'.site)
    {
      ApartAfter(rows, p', q');
    }
    forall r' | r' in rows' && Matched(r') && r'.primary.Some?
      ensures exists q' :: Rival(rows', q', r')
    {
      RivalAfter(rows, r');
    }
  }

  lemma {:induction false} ApartAfter(rows: seq<Row>, p': Row, q': Row)
    requires DistinctIds(rows) && p' in Rerun(rows) && q' in Rerun(rows)
    requires Primary(p') && Primary(q') && p'.title == q'.title && p'.id != q'.id
    ensures !SamePlace(p'.site, q'.site)
  {
    var m := Regrouped(rows);
    WriteMembers(rows, m);
    var p :| p in rows && Write1(p, m) == p';
    var q :| q in rows && Write1(q, m) == q';
    RegroupTotal(rows, p.id);
    RegroupTotal(rows, q.id);
    PrimariesApart(rows, p, q);
  }

  lemma {:induction false} RivalAfter(rows: seq<Row>, r': Row)
    requires DistinctIds(rows) && r' in Rerun(rows) && Matched(r') && r'.primary.Some?
    ensures exists q' :: Rival(Rerun(rows), q', r')
  {
    var m := Regrouped(rows);
    WriteMembers(rows, m);
    var r :| r in rows && Write1(r, m) == r';
    RegroupTotal(rows, r.id);
    RegroupIsGreedy(rows, r);
    var p :| Claims(rows, m, p, r) && m[r.id] == Some(p.id);
    WrittenRival(rows, m, p, r);
  }

  /** A second run keeps the same set of primaries. */
  lemma {:induction false} RerunKeepsPrimaries(rows: seq<Row>, r: Row)
    requires DistinctIds(rows) && OneLevel(rows) && r in rows
    ensures r.id in Regrouped(rows) && r.id in Regrouped(Rerun(rows))
    ensures Regrouped(rows)[r.id].None? <==> Regrouped(Rerun(rows))[r.id].None?
  {
    var m, rows' := Regrouped(rows), Rerun(rows);
    WriteMembers(rows, m);
    RegroupTotal(rows, r.id);
    var r' := Write1(r, m);
    if Matched(r) {
      RerunIsGrouped(rows);
      Standing(rows', r');
    } else {
      RerunOneLevel(rows);
      UnmatchedResult(rows, r);
      UnmatchedResult(rows', r');
    }
  }

  lemma {:induction false} UnmatchedStays(rows: seq<Row>, u: Row)
    requires DistinctIds(rows) && OneLevel(rows) && u in rows && !Matched(u)
    ensures u.id in Regrouped(rows) && u.id in Regrouped(Rerun(rows))
    ensures Regrouped(Rerun(rows))[u.id] == Regrouped(rows)[u.id]
  {
    var m, rows' := Regrouped(rows), Rerun(rows);
    WriteMembers(rows, m);
    RerunOneLevel(rows);
    UnmatchedResult(rows, u);
    UnmatchedResult(rows', Write1(u, m));
    if m[u.id].Some? {
      RegroupFlat(rows);
      RegroupTotal(rows, m[u.id].value);
      var t :| t in rows && t.id == m[u.id].value;
      RerunKeepsPrimaries(rows, t);
    }
  }

  lemma {:induction false} SameKeys(rows: seq<Row>)
    requires DistinctIds(rows)
    ensures Regrouped(rows).Keys == Regrouped(Rerun(rows)).Keys
  {
    WriteMembers(rows, Regrouped(rows));
    forall id
      ensures id in Regrouped(rows) <==> id in Regrouped(Rerun(rows))
    {
      RegroupTotal(rows, id);
      RegroupTotal(Rerun(rows), id);
      if r :| r in rows && r.id == id {
        assert Write1(r, Regrouped(rows)) in Rerun(rows);
      }
    }
  }

  /** A run gives the same result twice exactly when it leaves the written table alone. */
  lemma {:induction false} SameResultIffLeftAlone(rows: seq<Row>)
    requires DistinctIds(rows)
    ensures Regrouped(Rerun(rows)) == Regrouped(rows) <==> LeftAlone(Rerun(rows))
  {
    var m, m' := Regrouped(rows), Regrouped(Rerun(rows));
    WriteMembers(rows, m);
    SameKeys(rows);
    if m' == m {
      forall r' | r' in Rerun(rows)
        ensures r'.id in m' && m'[r'.id] == r'.primary
      {
        var r :| r in rows && Write1(r, m) == r';
        RegroupTotal(rows, r.id);
      }
    }
    if LeftAlone(Rerun(rows)) {
      forall id | id in m
        ensures m'[id] == m[id]
      {
        RegroupTotal(rows, id);
        var r :| r in rows && r.id == id;
        assert Write1(r, m) in Rerun(rows);
      }
    }
  }

  /** So a second run changes nothing exactly when the first left the table settled. */
  lemma {:induction false} IdempotentIffSettled(rows: seq<Row>)
    requires DistinctIds(rows) && OneLevel(rows)
    ensures Regrouped(Rerun(rows)) == Regrouped(rows) <==> Settled(Rerun(rows))
  {
    WriteMembers(rows, Regrouped(rows));
    RerunOneLevel(rows);
    SameResultIffLeftAlone(rows);
    LeftAloneIffSettled(Rerun(rows));
  }

  /** A run keeps a grouped table's rivals. */
  lemma {:induction false} SameRivals(rows: seq<Row>, q: Row, r: Row)
    requires DistinctIds(rows) && Grouped(rows) && q in rows && r in rows
    ensures Rival(Rerun(rows), Write1(q, Regrouped(rows)), Write1(r, Regrouped(rows))) <==> Rival(rows, q, r)
  {
    var m := Regrouped(rows);
    WriteMembers(rows, m);
    if Matched(q) {
      Standing(rows, q);
    }
  }

  /** And it leaves every duplicate of a grouped table with its preferred rival. */
  lemma {:induction false} WellPlacedAfter(rows: seq<Row>, r: Row)
    requires DistinctIds(rows) && Grouped(rows) && r in rows && Matched(r) && r.primary.Some?
    ensures WellPlaced(Rerun(rows), Write1(r, Regrouped(rows)))
  {
    var m, rows' := Regrouped(rows), Rerun(rows);
    var p := TargetIsPreferred(rows, r);
    var r' := Write1(r, m);
    WriteMembers(rows, m);
    SameRivals(rows, p, r);
    forall q' | Rival(rows', q', r')
      ensures !Prefers(r', q', Write1(p, m))
    {
      var q :| q in rows && Write1(q, m) == q';
      SameRivals(rows, q, r);
      SamePreference(r, q, p, m);
    }
  }

  /** A run over a grouped table, as one run's result is, settles it. */
  lemma {:induction false} GroupedSettles(rows: seq<Row>)
    requires DistinctIds(rows) && OneLevel(rows) && Grouped(rows)
    ensures Settled(Rerun(rows))
  {
    var m, rows' := Regrouped(rows), Rerun(rows);
    WriteMembers(rows, m);
    RerunIsGrouped(rows);
    forall r' | r' in rows' && Matched(r') && r'.primary.Some?
      ensures WellPlaced(rows', r')
    {
      var r :| r in rows && Write1(r, m) == r';
      Standing(rows, r);
      WellPlacedAfter(rows, r);
    }
    forall u' | u' in rows' && !Matched(u') && u'.primary.Some?
      ensures exists t' :: t' in rows' && t'.id == u'.primary.value && t'.primary.None?
    {
      UnmatchedPointsAtPrimary(rows, u');
    }
  }

  lemma {:induction false} UnmatchedPointsAtPrimary(rows: seq<Row>, u': Row)
    requires DistinctIds(rows) && OneLevel(rows) && u' in Rerun(rows) && !Matched(u') && u'.primary.Some?
    ensures exists t' :: t' in Rerun(rows) && t'.id == u'.primary.value && t'.primary.None?
  {
    var m := Regrouped(rows);
    WriteMembers(rows, m);
    var u :| u in rows && Write1(u, m) == u';
    RegroupTotal(rows, u.id);
    RegroupFlat(rows);
    RegroupTotal(rows, u'.primary.value);
    var t :| t in rows && t.id == u'.primary.value;
    assert Write1(t, m) in Rerun(rows);
  }

  /** Whatever the first run did, the second run's result is final. */
  lemma {:induction false} FixpointAfterTwoRuns(rows: seq<Row>)
    requires DistinctIds(rows) && OneLevel(rows)
    ensures Regrouped(Rerun(Rerun(rows))) == Regrouped(Rerun(rows))
  {
    var once := Rerun(rows);
    WriteMembers(rows, Regrouped(rows));
    RerunOneLevel(rows);
    RerunIsGrouped(rows);
    GroupedSettles(once);
    IdempotentIffSettled(once);
  }

  lemma {:induction false} SamePreference(r: Row, q: Row, p: Row, m: Links)
    ensures Prefers(Write1(r, m), Write1(q, m), Write1(p, m)) <==> Prefers(r, q, p)
  {
    SameSlot(r, q, m);
    SameSlot(r, p, m);
  }

  lemma {:induction false} SameSlot(r: Row, q: Row, m: Links)
    ensures Slot(Write1(r, m), Write1(q, m)) == Slot(r, q)
  {
    assert Write1(r, m).site == r.site && Write1(q, m).site == q.site;
  }

  /** Three fresh postings of one title: a store, the same city from another site, and that
      site's store again under the first site's domain. */
  function Unsettled(): (Row, Row, Row) {
    var city: Place := (0, 0);
    ( Row(1, Some("cashier"), true, false, false, 1, None, Site({"store 1"}, [city], "acme.com")),
      Row(2, Some("cashier"), true, false, false, 2, None, Site({"store 2"}, [city], "board.com")),
      Row(3, Some("cashier"), true, false, false, 3, None, Site({"store 2"}, [city], "acme.com")) )
  }

  lemma {:induction false} UnsettledPlaces()
    ensures var (p, r, q) := Unsettled();
            SamePlace(p.site, r.site) && !SamePlace(p.site, q.site) && SamePlace(q.site, r.site)
            && Slot(r, q) == 0 && Slot(r, p) > 0
  {
    var (p, r, q) := Unsettled();
    assert "store 1" in p.site.key && "store 2" in r.site.key;
    assert "store 1" !in r.site.key;
    assert (0, 0) in p.site.places && (0, 0) in r.site.places;
    assert p.site.domain[0] != r.site.domain[0];
  }

  /** One run leaves the second of these with the first, though it prefers the third. */
  lemma {:induction false} UnsettledRun(rows: seq<Row>)
    requires var (p, r, q) := Unsettled(); rows == [p, r, q]
    ensures DistinctIds(rows) && OneLevel(rows)
    ensures !Settled(Rerun(rows))
  {
    var (p, r, q) := Unsettled();
    var m := Regrouped(rows);
    UnsettledPointers(rows);
    WriteMembers(rows, m);
    var p', r', q' := Write1(p, m), Write1(r, m), Write1(q, m);
    WrittenRival(rows, m, q, r);
    SamePreference(r, q, p, m);
    if WellPlaced(Rerun(rows), r') {
      var x :| Rival(Rerun(rows), x, r') && r'.primary == Some(x.id)
               && forall y :: Rival(Rerun(rows), y, r') ==> !Prefers(r', y, x);
      SameRow(Rerun(rows), x, p');
    }
  }

  lemma {:induction false} UnsettledPointers(rows: seq<Row>)
    requires var (p, r, q) := Unsettled(); rows == [p, r, q]
    ensures DistinctIds(rows) && OneLevel(rows)
    ensures var (p, r, q) := Unsettled(); var m := Regrouped(rows);
            && p in rows && r in rows && q in rows && p.id in m && r.id in m && q.id in m
            && m[p.id] == None && m[r.id] == Some(p.id) && m[q.id] == None
            && SamePlace(q.site, r.site) && Prefers(r, q, p)
  {
    var (p, r, q) := Unsettled();
    var m := Regrouped(rows);
    UnsettledPlaces();
    assert rows[0] == p && rows[1] == r && rows[2] == q;
    RegroupIsGreedy(rows, p);
    RegroupIsGreedy(rows, r);
    RegroupIsGreedy(rows, q);
    assert forall x :: x in rows ==> x == p || x == r || x == q;
    assert m[p.id] == None;
    assert Claims(rows, m, p, r);
    assert m[r.id] == Some(p.id);
  }

  /** So one run is not always enough, even on postings that have no pointers yet. */
  lemma {:induction false} OneRunMayNotBeEnough()
    ensures exists rows: seq<Row> :: DistinctIds(rows) && OneLevel(rows) && (forall r :: r in rows ==> r.primary.None?)
                           && Regrouped(Rerun(rows)) != Regrouped(rows)
  {
    var rows := UnsettledRows();
    IdempotentIffSettled(rows);
  }

  lemma {:induction false} UnsettledRows() returns (rows: seq<Row>)
    ensures DistinctIds(rows) && OneLevel(rows) && (forall r :: r in rows ==> r.primary.None?)
    ensures !Settled(Rerun(rows))
  {
    var (p, r, q) := Unsettled();
    rows := [p, r, q];
    UnsettledRun(rows);
  }
}
