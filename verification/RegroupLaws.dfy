/** What a run of regroup guarantees (one_off/redo_dedup.py:85-129), and what a second and a
    third run do to its result. */
module RegroupLaws {
  import opened Base
  import opened Sorting
  import opened JobDedup
  import opened Regroup

  // ---------------------------------------------------------------- which primary is nearest

  /** The index of the first of `mine` that is also one of `theirs`. */
  function FirstShared(mine: seq<Place>, theirs: seq<Place>): (i: nat)
    ensures i <= |mine|
    ensures i < |mine| ==> mine[i] in theirs
    ensures forall k :: 0 <= k < i ==> mine[k] !in theirs
  {
    if mine == [] || mine[0] in theirs then 0 else 1 + FirstShared(mine[1..], theirs)
  }

  /** How well a primary's place fits a row's: an exact location key first, then the row's own
      cities in order. */
  function Slot(r: Row, p: Row): nat {
    if p.site.key == r.site.key then 0 else 1 + FirstShared(r.site.places, p.site.places)
  }

  predicate Near(p: Row, place: Place, domain: string) {
    p.site.key != {} && place in p.site.places && p.site.domain != domain
  }

  lemma {:induction false} ExactIsFirst(kept: seq<Row>, key: set<string>)
    ensures Exact(kept, key).None? ==> forall j :: 0 <= j < |kept| ==> kept[j].site.key != key
    ensures Exact(kept, key).Some? ==>
              exists i :: 0 <= i < |kept| && kept[i] == Exact(kept, key).value && kept[i].site.key == key
                          && forall j :: 0 <= j < i ==> kept[j].site.key != key
  {
    if kept != [] {
      ExactIsFirst(kept[..|kept| - 1], key);
    }
  }

  lemma {:induction false} FirstForeignAppend(s: seq<Row>, r: Row, domain: string)
    ensures FirstForeign(s + [r], domain) ==
            if FirstForeign(s, domain).Some? then FirstForeign(s, domain)
            else if r.site.domain != domain then Some(r) else None
  {
    if s == [] {
      assert s + [r] == [r];
    } else {
      assert (s + [r])[1..] == s[1..] + [r];
      FirstForeignAppend(s[1..], r, domain);
    }
  }

  lemma {:induction false} NearIsFirst(kept: seq<Row>, place: Place, domain: string)
    ensures FirstForeign(AtPlace(kept, place), domain).None? ==>
              forall j :: 0 <= j < |kept| ==> !Near(kept[j], place, domain)
    ensures FirstForeign(AtPlace(kept, place), domain).Some? ==>
              exists i :: 0 <= i < |kept| && kept[i] == FirstForeign(AtPlace(kept, place), domain).value
                          && Near(kept[i], place, domain)
                          && forall j :: 0 <= j < i ==> !Near(kept[j], place, domain)
  {
    if kept != [] {
      var n := |kept| - 1;
      NearIsFirst(kept[..n], place, domain);
      FirstForeignAppend(AtPlace(kept[..n], place), kept[n], domain);
    }
  }

  /** Nobody kept is at any of these places. */
  ghost predicate NobodyAt(kept: seq<Row>, places: seq<Place>, domain: string) {
    forall k, j :: 0 <= k < |places| && 0 <= j < |kept| ==> !Near(kept[j], places[k], domain)
  }

  /** Kept row i is the first at places[m], and nobody is at the places before. */
  ghost predicate FirstAt(kept: seq<Row>, places: seq<Place>, domain: string, m: nat, i: nat) {
    && m < |places| && i < |kept| && Near(kept[i], places[m], domain)
    && (forall j :: 0 <= j < i ==> !Near(kept[j], places[m], domain))
    && NobodyAt(kept, places[..m], domain)
  }

  lemma {:induction false} NobodyAtMore(kept: seq<Row>, places: seq<Place>, domain: string)
    requires places != [] && forall j :: 0 <= j < |kept| ==> !Near(kept[j], places[0], domain)
    requires NobodyAt(kept, places[1..], domain)
    ensures NobodyAt(kept, places, domain)
  {
    forall k, j | 0 <= k < |places| && 0 <= j < |kept|
      ensures !Near(kept[j], places[k], domain)
    {
      if k > 0 {
        assert places[k] == places[1..][k - 1];
      }
    }
  }

  lemma {:induction false} FirstAtMore(kept: seq<Row>, places: seq<Place>, domain: string, m: nat, i: nat)
    requires places != [] && forall j :: 0 <= j < |kept| ==> !Near(kept[j], places[0], domain)
    requires FirstAt(kept, places[1..], domain, m, i)
    ensures FirstAt(kept, places, domain, m + 1, i)
  {
    assert places[m + 1] == places[1..][m];
    assert places[..m + 1][1..] == places[1..][..m];
    NobodyAtMore(kept, places[..m + 1], domain);
  }

  lemma {:induction false} ByCityIsFirst(kept: seq<Row>, places: seq<Place>, domain: string)
    ensures ByCity(kept, places, domain).None? ==> NobodyAt(kept, places, domain)
    ensures ByCity(kept, places, domain).Some? ==>
              exists m: nat, i: nat :: FirstAt(kept, places, domain, m, i) && kept[i] == ByCity(kept, places, domain).value
  {
    if places != [] {
      NearIsFirst(kept, places[0], domain);
      ByCityIsFirst(kept, places[1..], domain);
      if FirstForeign(AtPlace(kept, places[0]), domain).Some? {
        var i: nat :| i < |kept| && kept[i] == FirstForeign(AtPlace(kept, places[0]), domain).value
                      && Near(kept[i], places[0], domain) && forall j :: 0 <= j < i ==> !Near(kept[j], places[0], domain);
        assert FirstAt(kept, places, domain, 0, i);
      } else if ByCity(kept, places[1..], domain).Some? {
        var m: nat, i: nat :| FirstAt(kept, places[1..], domain, m, i) && kept[i] == ByCity(kept, places[1..], domain).value;
        FirstAtMore(kept, places, domain, m, i);
      } else {
        NobodyAtMore(kept, places, domain);
      }
    }
  }

  ghost predicate BestAt(kept: seq<Row>, r: Row, i: nat) {
    && i < |kept|
    && SamePlace(kept[i].site, r.site)
    && forall j :: 0 <= j < |kept| && SamePlace(kept[j].site, r.site) ==>
                     Slot(r, kept[i]) < Slot(r, kept[j]) || (Slot(r, kept[i]) == Slot(r, kept[j]) && i <= j)
  }

  lemma {:induction false} NearSlot(p: Row, r: Row)
    requires p.site.key != {} && r.site.key != {} && p.site.key != r.site.key
    ensures SamePlace(p.site, r.site) <==> exists m :: 0 <= m < |r.site.places| && Near(p, r.site.places[m], r.site.domain)
    ensures forall m :: 0 <= m < |r.site.places| && Near(p, r.site.places[m], r.site.domain) ==> Slot(r, p) <= m + 1
    ensures SamePlace(p.site, r.site) ==>
              Slot(r, p) - 1 < |r.site.places| && Near(p, r.site.places[Slot(r, p) - 1], r.site.domain)
  {
    if SamePlace(p.site, r.site) {
      var c :| c in p.site.places && c in r.site.places;
      var places: seq<Place> := r.site.places;
      var m :| 0 <= m < |places| && places[m] == c;
      assert Near(p, r.site.places[m], r.site.domain);
    }
  }

  /** The indexed lookup finds a primary exactly when some kept one is at the same place, and
      then the nearest: an exact location over a shared city, the row's earlier city over a
      later one, the primary kept earlier over one kept later. */
  lemma {:induction false} ChoiceIsNearest(kept: seq<Row>, r: Row)
    ensures Choice(kept, r).None? <==> forall j :: 0 <= j < |kept| ==> !SamePlace(kept[j].site, r.site)
    ensures Choice(kept, r).Some? ==> exists i: nat :: BestAt(kept, r, i) && kept[i] == Choice(kept, r).value
  {
    ExactIsFirst(kept, r.site.key);
    if r.site.key != {} && Exact(kept, r.site.key).None? {
      CityIsNearest(kept, r);
    } else if r.site.key != {} {
      var i :| 0 <= i < |kept| && kept[i] == Exact(kept, r.site.key).value && kept[i].site.key == r.site.key
               && forall j :: 0 <= j < i ==> kept[j].site.key != r.site.key;
      assert BestAt(kept, r, i);
    }
  }

  ghost predicate NoExact(kept: seq<Row>, r: Row) {
    r.site.key != {} && forall j :: 0 <= j < |kept| ==> kept[j].site.key != r.site.key
  }

  lemma {:induction false} NearAnywhere(kept: seq<Row>, r: Row, j: nat)
    requires NoExact(kept, r) && j < |kept|
    ensures SamePlace(kept[j].site, r.site) <==>
            exists m :: 0 <= m < |r.site.places| && Near(kept[j], r.site.places[m], r.site.domain)
  {
    if kept[j].site.key != {} {
      NearSlot(kept[j], r);
    }
  }

  /** The first kept primary in the first city that has one is the nearest. */
  lemma {:induction false} FirstNearIsBest(kept: seq<Row>, r: Row, m: nat, i: nat)
    requires NoExact(kept, r) && FirstAt(kept, r.site.places, r.site.domain, m, i)
    ensures BestAt(kept, r, i)
  {
    var before: seq<Place> := r.site.places[..m];
    forall k, j | 0 <= k < m && 0 <= j < |kept|
      ensures !Near(kept[j], r.site.places[k], r.site.domain)
    {
      assert before[k] == r.site.places[k];
    }
    NearAnywhere(kept, r, i);
    NearSlot(kept[i], r);
    forall j | 0 <= j < |kept| && SamePlace(kept[j].site, r.site)
      ensures m + 1 < Slot(r, kept[j]) || (m + 1 == Slot(r, kept[j]) && i <= j)
    {
      NearSlot(kept[j], r);
    }
    assert Slot(r, kept[i]) == m + 1;
  }

  lemma {:induction false} CityIsNearest(kept: seq<Row>, r: Row)
    requires NoExact(kept, r)
    ensures var c := ByCity(kept, r.site.places, r.site.domain);
            && (c.None? <==> forall j :: 0 <= j < |kept| ==> !SamePlace(kept[j].site, r.site))
            && (c.Some? ==> exists i: nat :: BestAt(kept, r, i) && kept[i] == c.value)
  {
    var places: seq<Place> := r.site.places;
    var c := ByCity(kept, places, r.site.domain);
    ByCityIsFirst(kept, places, r.site.domain);
    if c.Some? {
      var m: nat, i: nat :| FirstAt(kept, places, r.site.domain, m, i) && kept[i] == c.value;
      FirstNearIsBest(kept, r, m, i);
    } else {
      forall j | 0 <= j < |kept|
        ensures !SamePlace(kept[j].site, r.site)
      {
        NearAnywhere(kept, r, j);
      }
    }
  }

  // ---------------------------------------------------------------- one sorted bucket

  ghost predicate KeptAt(b: seq<Row>, i: nat)
    requires i < |b|
  {
    Choice(Kept(b[..i]), b[i]).None?
  }

  lemma AheadIsTotal()
    ensures TotalOrder((a: Row, b: Row) => Ahead(a, b))
  {
  }

  lemma {:induction false} KeptStep(b: seq<Row>, n: nat)
    requires n < |b|
    ensures Kept(b[..n + 1]) == Kept(b[..n]) + if KeptAt(b, n) then [b[n]] else []
  {
    ScanStep(b, n);
  }

  lemma {:induction false} KeptStays(b: seq<Row>, n: nat, p: Row)
    requires n < |b| && p in Kept(b[..n])
    ensures p in Kept(b[..n + 1])
  {
    KeptStep(b, n);
  }

  lemma {:induction false} KeptNew(b: seq<Row>, n: nat)
    requires n < |b| && KeptAt(b, n)
    ensures b[n] in Kept(b[..n + 1])
  {
    KeptStep(b, n);
    var kept := Kept(b[..n]);
    assert (kept + [b[n]])[|kept|] == b[n];
  }

  lemma {:induction false} KeptBefore(b: seq<Row>, n: nat, p: Row)
    requires n < |b| && p in Kept(b[..n + 1]) && p !in Kept(b[..n])
    ensures KeptAt(b, n) && p == b[n]
  {
    KeptStep(b, n);
  }

  lemma {:induction false} KeptHas(b: seq<Row>, n: nat, j: nat)
    requires j < n <= |b| && KeptAt(b, j)
    ensures b[j] in Kept(b[..n])
  {
    if j < n - 1 {
      KeptHas(b, n - 1, j);
      KeptStays(b, n - 1, b[j]);
    } else {
      KeptNew(b, j);
    }
  }

  lemma {:induction false} KeptFrom(b: seq<Row>, n: nat, p: Row) returns (j: nat)
    requires n <= |b| && p in Kept(b[..n])
    ensures j < n && b[j] == p && KeptAt(b, j)
  {
    assert n > 0;
    if p in Kept(b[..n - 1]) {
      j := KeptFrom(b, n - 1, p);
    } else {
      KeptBefore(b, n - 1, p);
      j := n - 1;
    }
  }

  lemma {:induction false} KeptMembers(b: seq<Row>, n: nat)
    requires n <= |b|
    ensures forall p :: p in Kept(b[..n]) ==> exists j :: 0 <= j < n && b[j] == p && KeptAt(b, j)
    ensures forall j :: 0 <= j < n && KeptAt(b, j) ==> b[j] in Kept(b[..n])
  {
    forall p | p in Kept(b[..n])
      ensures exists j :: 0 <= j < n && b[j] == p && KeptAt(b, j)
    {
      var j := KeptFrom(b, n, p);
    }
    forall j | 0 <= j < n && KeptAt(b, j) {
      KeptHas(b, n, j);
    }
  }

  lemma {:induction false} KeptAhead(b: seq<Row>, n: nat, p: Row)
    requires n < |b| && SortedBy(b, (x, y) => Ahead(x, y)) && p in Kept(b[..n])
    ensures Ahead(p, b[n])
  {
    var j := KeptFrom(b, n, p);
  }

  lemma {:induction false} SortedAppend(s: seq<Row>, r: Row)
    requires SortedBy(s, (x, y) => Ahead(x, y)) && forall p :: p in s ==> Ahead(p, r)
    ensures SortedBy(s + [r], (x, y) => Ahead(x, y))
  {
  }

  lemma {:induction false} KeptSorted(b: seq<Row>, n: nat)
    requires n <= |b| && SortedBy(b, (x, y) => Ahead(x, y))
    ensures SortedBy(Kept(b[..n]), (x, y) => Ahead(x, y))
  {
    if n > 0 {
      KeptSorted(b, n - 1);
      KeptStep(b, n - 1);
      var kept := Kept(b[..n - 1]);
      if KeptAt(b, n - 1) {
        forall p | p in kept
          ensures Ahead(p, b[n - 1])
        {
          KeptAhead(b, n - 1, p);
        }
        SortedAppend(kept, b[n - 1]);
      } else {
        assert Kept(b[..n]) == kept;
      }
    }
  }

  lemma {:induction false} AssignAt(b: seq<Row>, n: nat, i: nat)
    requires DistinctIds(b) && i < n <= |b|
    ensures b[i].id in Assign(b[..n])
    ensures Assign(b[..n])[b[i].id] == IdOf(Choice(Kept(b[..i]), b[i]))
  {
    var before, to := Assign(b[..n - 1]), IdOf(Choice(Kept(b[..n - 1]), b[n - 1]));
    assert Assign(b[..n]) == before[b[n - 1].id := to] by {
      ScanStep(b, n - 1);
    }
    if i < n - 1 {
      AssignAt(b, n - 1, i);
      assert b[i].id != b[n - 1].id;
    }
  }

  // ---------------------------------------------------------------- the greedy rule, on rows alone

  /** p is a better choice than q for r: its place fits better, or as well with p ahead. */
  predicate Nearer(r: Row, p: Row, q: Row) {
    Slot(r, p) < Slot(r, q) || (Slot(r, p) == Slot(r, q) && Ahead(p, q))
  }

  /** A primary of r's title, ahead of r, at the same place. */
  ghost predicate Claims(rows: seq<Row>, m: Links, q: Row, r: Row) {
    && q in rows && Matched(q) && q.title == r.title && q.id != r.id
    && q.id in m && m[q.id] == None
    && Ahead(q, r)
    && SamePlace(q.site, r.site)
  }

  /** The rule itself: a row is a duplicate exactly when some primary ahead of it is at the
      same place, and then it points at the nearest of those. */
  ghost predicate Greedy(rows: seq<Row>, m: Links, r: Row) {
    && r.id in m
    && (m[r.id].None? ==> forall q :: !Claims(rows, m, q, r))
    && (m[r.id].Some? ==>
          exists p :: Claims(rows, m, p, r) && m[r.id] == Some(p.id)
                      && forall q :: Claims(rows, m, q, r) ==> Nearer(r, p, q))
  }

  ghost predicate BucketOf(rows: seq<Row>, title: string, b: seq<Row>, m: Links) {
    && DistinctIds(b)
    && SortedBy(b, (x, y) => Ahead(x, y))
    && (forall r :: r in b <==> r in rows && Matched(r) && r.title == Some(title))
    && (forall i :: 0 <= i < |b| ==> b[i].id in m && m[b[i].id] == IdOf(Choice(Kept(b[..i]), b[i])))
  }

  lemma {:induction false} ClaimsByIndex(rows: seq<Row>, title: string, b: seq<Row>, m: Links, i: nat, q: Row)
    requires BucketOf(rows, title, b, m) && i < |b|
    ensures Claims(rows, m, q, b[i]) <==> q in Kept(b[..i]) && SamePlace(q.site, b[i].site)
  {
    KeptMembers(b, i);
    if q in b && q.id != b[i].id {
      var j :| 0 <= j < |b| && b[j] == q;
      if i < j {
        assert Ahead(b[i], b[j]);
        assert !Ahead(b[j], b[i]);
      }
      assert m[b[j].id] == IdOf(Choice(Kept(b[..j]), b[j]));
    }
  }

  lemma {:induction false} BucketGreedy(rows: seq<Row>, title: string, b: seq<Row>, m: Links, i: nat)
    requires BucketOf(rows, title, b, m) && i < |b|
    ensures Greedy(rows, m, b[i])
  {
    var r, kept := b[i], Kept(b[..i]);
    assert m[b[i].id] == IdOf(Choice(kept, r));
    ChoiceIsNearest(kept, r);
    forall q
      ensures Claims(rows, m, q, r) <==> q in kept && SamePlace(q.site, r.site)
    {
      ClaimsByIndex(rows, title, b, m, i, q);
    }
    if Choice(kept, r).Some? {
      var k: nat :| BestAt(kept, r, k) && kept[k] == Choice(kept, r).value;
      KeptSorted(b, i);
      forall q | Claims(rows, m, q, r)
        ensures Nearer(r, kept[k], q)
      {
        BestIsNearer(kept, r, k, q);
      }
      assert Claims(rows, m, kept[k], r);
    }
  }

  /** The best of a sorted list is nearer than any other at the place. */
  lemma {:induction false} BestIsNearer(kept: seq<Row>, r: Row, k: nat, q: Row)
    requires SortedBy(kept, (x, y) => Ahead(x, y)) && BestAt(kept, r, k) && q in kept && SamePlace(q.site, r.site)
    ensures Nearer(r, kept[k], q)
  {
    var j :| 0 <= j < |kept| && kept[j] == q;
    assert k < j ==> Ahead(kept[k], kept[j]);
    assert Ahead(kept[k], kept[k]);
  }

  lemma {:induction false} FollowKeeps(rows: seq<Row>, m: Links, id: Id)
    requires forall r :: r in rows && r.id == id ==> Matched(r)
    ensures id in Follow(rows, m) <==> id in m
    ensures id in m ==> Follow(rows, m)[id] == m[id]
  {
    if rows != [] {
      FollowKeeps(rows[..|rows| - 1], m, id);
    }
  }

  lemma {:induction false} MatchedResult(rows: seq<Row>, r: Row)
    requires DistinctIds(rows) && r in rows && Matched(r)
    ensures r.id in Regrouped(rows) && Regrouped(rows)[r.id] == TargetOf(rows, r)
  {
    MatchingAt(rows, rows);
    forall q | q in rows && q.id == r.id
      ensures Matched(q)
    {
      SameRow(rows, q, r);
    }
    FollowKeeps(rows, Matching(rows, rows), r.id);
  }

  lemma {:induction false} SortedDistinct(rows: seq<Row>, title: string)
    requires DistinctIds(rows)
    ensures DistinctIds(Sorted(rows, title))
  {
    var b, s := Bucket(rows, title), Sorted(rows, title);
    BucketDistinct(rows, title);
    DistinctSorted(b, s);
    SortedMembers(rows, title);
    forall i, j | 0 <= i < j < |s|
      ensures s[i].id != s[j].id
    {
      assert s[i] in s && s[j] in s;
      if s[i].id == s[j].id {
        SameRow(rows, s[i], s[j]);
      }
    }
  }

  lemma {:induction false} BucketDistinct(rows: seq<Row>, title: string)
    requires DistinctIds(rows)
    ensures forall i, j :: 0 <= i < j < |Bucket(rows, title)| ==> Bucket(rows, title)[i] != Bucket(rows, title)[j]
  {
    if rows != [] {
      var n := |rows| - 1;
      BucketDistinct(rows[..n], title);
      BucketMembers(rows[..n], title);
      assert rows[n] !in rows[..n];
    }
  }

  lemma {:induction false} ResultBucket(rows: seq<Row>, title: string)
    requires DistinctIds(rows)
    ensures BucketOf(rows, title, Sorted(rows, title), Regrouped(rows))
  {
    var b := Sorted(rows, title);
    AheadIsTotal();
    SortSorted(Bucket(rows, title), (x, y) => Ahead(x, y));
    SortedMembers(rows, title);
    SortedDistinct(rows, title);
    forall i | 0 <= i < |b|
      ensures b[i].id in Regrouped(rows) && Regrouped(rows)[b[i].id] == IdOf(Choice(Kept(b[..i]), b[i]))
    {
      assert b[i] in b;
      MatchedResult(rows, b[i]);
      assert b[..|b|] == b;
      AssignAt(b, |b|, i);
    }
  }

  /** The indexed run is the plain greedy rule, for every matched row. */
  lemma {:induction false} RegroupIsGreedy(rows: seq<Row>, r: Row)
    requires DistinctIds(rows) && r in rows && Matched(r)
    ensures Greedy(rows, Regrouped(rows), r)
  {
    var b := Sorted(rows, r.title.value);
    ResultBucket(rows, r.title.value);
    var i :| 0 <= i < |b| && b[i] == r;
    BucketGreedy(rows, r.title.value, b, Regrouped(rows), i);
  }

  lemma {:induction false} SamePlaceSymmetric(a: Site, b: Site)
    ensures SamePlace(a, b) <==> SamePlace(b, a)
  {
  }

  /** No two primaries of one title are at the same place. */
  lemma {:induction false} PrimariesApart(rows: seq<Row>, p: Row, q: Row)
    requires DistinctIds(rows) && p in rows && q in rows && p != q
    requires Matched(p) && Matched(q) && p.title == q.title
    requires p.id in Regrouped(rows) && Regrouped(rows)[p.id] == None
    requires q.id in Regrouped(rows) && Regrouped(rows)[q.id] == None
    ensures !SamePlace(p.site, q.site)
  {
    RegroupIsGreedy(rows, p);
    RegroupIsGreedy(rows, q);
    SamePlaceSymmetric(p.site, q.site);
    if p.id == q.id {
      SameRow(rows, p, q);
    }
    assert Ahead(p, q) || Ahead(q, p);
    assert !Claims(rows, Regrouped(rows), p, q) && !Claims(rows, Regrouped(rows), q, p);
  }

  /** A duplicate never outranks its primary: official first, then open. */
  lemma {:induction false} PrimaryOutranks(rows: seq<Row>, r: Row, p: Row)
    requires DistinctIds(rows) && r in rows && Matched(r) && p in rows
    requires r.id in Regrouped(rows) && Regrouped(rows)[r.id] == Some(p.id)
    ensures r.official ==> p.official
    ensures p.official == r.official ==> (!r.closed ==> !p.closed)
    ensures Matched(p) && p.title == r.title && SamePlace(p.site, r.site)
  {
    RegroupIsGreedy(rows, r);
    var q :| Claims(rows, Regrouped(rows), q, r) && q.id == p.id;
    SameRow(rows, p, q);
  }

  // ---------------------------------------------------------------- the order, on the columns

  /** The tuple the code sorts a bucket by, false before true. */
  function SortKey(r: Row): seq<int> {
    [if r.official then 0 else 1, if r.closed then 1 else 0, if r.primary.Some? then 1 else 0, r.createdAt, r.id]
  }

  /** Tuples compare at the first place they differ. */
  predicate KeyLess(a: seq<int>, b: seq<int>)
    requires |a| == |b|
  {
    exists i :: 0 <= i < |a| && a[i] < b[i] && forall j :: 0 <= j < i ==> a[j] == b[j]
  }

  lemma {:induction false} AheadIsKeyOrder(a: Row, b: Row)
    requires a.id != b.id
    ensures Ahead(a, b) <==> KeyLess(SortKey(a), SortKey(b))
  {
    var x, y := SortKey(a), SortKey(b);
    if Ahead(a, b) {
      var i := if x[0] != y[0] then 0 else if x[1] != y[1] then 1 else if x[2] != y[2] then 2 else if x[3] != y[3] then 3 else 4;
      assert x[i] < y[i] && forall j :: 0 <= j < i ==> x[j] == y[j];
    } else if i :| 0 <= i < |x| && x[i] < y[i] && forall j :: 0 <= j < i ==> x[j] == y[j] {
      assert i > 0 ==> x[0] == y[0];
      assert i > 1 ==> x[1] == y[1];
      assert i > 2 ==> x[2] == y[2];
      assert i > 3 ==> x[3] == y[3];
    }
  }

  /** Who becomes the primary, column by column: the official copy, then the open one, then one that
      was a primary before, then the older posting, then the smaller id. */
  lemma {:induction false} OldestIsPrimary(rows: seq<Row>, r: Row, p: Row)
    requires DistinctIds(rows) && r in rows && p in rows && r.success && r.title.Some?
    requires r.id in Regrouped(rows) && Regrouped(rows)[r.id] == Some(p.id)
    ensures r.official ==> p.official
    ensures p.official == r.official && p.closed ==> r.closed
    ensures p.official == r.official && p.closed == r.closed && p.primary.Some? ==> r.primary.Some?
    ensures p.official == r.official && p.closed == r.closed && p.primary.None? == r.primary.None? ==>
              p.createdAt < r.createdAt || (p.createdAt == r.createdAt && p.id < r.id)
  {
    RegroupIsGreedy(rows, r);
    var q :| Claims(rows, Regrouped(rows), q, r) && q.id == p.id;
    SameRow(rows, p, q);
    AheadIsKeyOrder(p, r);
    var i :| 0 <= i < 5 && SortKey(p)[i] < SortKey(r)[i] && forall j :: 0 <= j < i ==> SortKey(p)[j] == SortKey(r)[j];
    assert i > 0 ==> SortKey(p)[0] == SortKey(r)[0];
    assert i > 1 ==> SortKey(p)[1] == SortKey(r)[1];
    assert i > 2 ==> SortKey(p)[2] == SortKey(r)[2];
    assert i > 3 ==> SortKey(p)[3] == SortKey(r)[3];
  }

  /** And who stays one: a scanned row is a primary exactly when no primary of its title at its place
      sorts before it. */
  lemma {:induction false} PrimaryIffFirst(rows: seq<Row>, r: Row)
    requires DistinctIds(rows) && r in rows && r.success && r.title.Some?
    ensures r.id in Regrouped(rows)
    ensures Regrouped(rows)[r.id].None? <==>
              !exists q :: q in rows && q.success && q.title == r.title && q.id != r.id
                           && q.id in Regrouped(rows) && Regrouped(rows)[q.id].None?
                           && SamePlace(q.site, r.site) && KeyLess(SortKey(q), SortKey(r))
  {
    RegroupIsGreedy(rows, r);
    forall q | q in rows && q.id != r.id
      ensures Ahead(q, r) <==> KeyLess(SortKey(q), SortKey(r))
    {
      AheadIsKeyOrder(q, r);
    }
    var m := Regrouped(rows);
    if m[r.id].Some? {
      var q :| Claims(rows, m, q, r);
      assert KeyLess(SortKey(q), SortKey(r));
    } else if q :| q in rows && q.success && q.title == r.title && q.id != r.id && q.id in m && m[q.id].None?
                   && SamePlace(q.site, r.site) && KeyLess(SortKey(q), SortKey(r)) {
      assert Claims(rows, m, q, r);
    }
  }
}
