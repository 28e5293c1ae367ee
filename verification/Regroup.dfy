/** one_off/redo_dedup.py: re-grouping one company's postings. The code walks each title's
    rows in priority order with two hash indexes; the specification is the plain greedy rule
    over the list of primaries kept so far. */
module Regroup {
  import opened Base
  import opened Sorting
  import opened JobDedup

  type Id = nat

  /** A row of the company, as _load reads it. Ids compare as their strings do. */
  datatype Row = Row(
    id: Id, title: Option<string>, success: bool, official: bool, closed: bool,
    createdAt: int, primary: Option<Id>, site: Site)

  type Links = map<Id, Option<Id>>

  predicate Matched(r: Row) {
    r.success && r.title.Some?
  }

  /** (not official, closed), the part of the sort key that outranks everything else. */
  function Class(r: Row): nat {
    (if r.official then 0 else 2) + (if r.closed then 1 else 0)
  }

  predicate Older(a: Row, b: Row) {
    if a.createdAt != b.createdAt then a.createdAt < b.createdAt else a.id <= b.id
  }

  /** bucket.sort's key. */
  predicate Ahead(a: Row, b: Row) {
    if Class(a) != Class(b) then Class(a) < Class(b)
    else if a.primary.Some? != b.primary.Some? then a.primary.None?
    else Older(a, b)
  }

  ghost predicate DistinctIds(rows: seq<Row>) {
    forall i, j :: 0 <= i < j < |rows| ==> rows[i].id != rows[j].id
  }

  // ---------------------------------------------------------------- the greedy rule

  /** The kept primary with exactly this location key. */
  function Exact(kept: seq<Row>, key: set<string>): Option<Row> {
    if kept == [] then None
    else
      var n := |kept| - 1;
      var p := Exact(kept[..n], key);
      if p.Some? then p else if kept[n].site.key == key then Some(kept[n]) else None
  }

  /** The kept primaries known to be at a place, oldest claim first. */
  function AtPlace(kept: seq<Row>, place: Place): seq<Row> {
    if kept == [] then []
    else
      var n := |kept| - 1;
      var rest := AtPlace(kept[..n], place);
      if kept[n].site.key != {} && place in kept[n].site.places then rest + [kept[n]] else rest
  }

  function FirstForeign(rows: seq<Row>, domain: string): Option<Row> {
    if rows == [] then None
    else if rows[0].site.domain != domain then Some(rows[0])
    else FirstForeign(rows[1..], domain)
  }

  function ByCity(kept: seq<Row>, places: seq<Place>, domain: string): Option<Row> {
    if places == [] then None
    else
      var p := FirstForeign(AtPlace(kept, places[0]), domain);
      if p.Some? then p else ByCity(kept, places[1..], domain)
  }

  /** The primary a row joins, given the primaries kept so far. */
  function Choice(kept: seq<Row>, r: Row): Option<Row> {
    if r.site.key == {} then None
    else
      var p := Exact(kept, r.site.key);
      if p.Some? then p else ByCity(kept, r.site.places, r.site.domain)
  }

  function Kept(b: seq<Row>): seq<Row> {
    if b == [] then []
    else
      var n := |b| - 1;
      var k := Kept(b[..n]);
      if Choice(k, b[n]).None? then k + [b[n]] else k
  }

  function IdOf(p: Option<Row>): Option<Id> {
    if p.None? then None else Some(p.value.id)
  }

  /** Every row of a sorted bucket and the primary it gets. */
  function Assign(b: seq<Row>): Links {
    if b == [] then map[]
    else
      var n := |b| - 1;
      Assign(b[..n])[b[n].id := IdOf(Choice(Kept(b[..n]), b[n]))]
  }

  function Bucket(rows: seq<Row>, title: string): seq<Row> {
    if rows == [] then []
    else
      var n := |rows| - 1;
      var rest := Bucket(rows[..n], title);
      if Matched(rows[n]) && rows[n].title == Some(title) then rest + [rows[n]] else rest
  }

  function Sorted(rows: seq<Row>, title: string): seq<Row> {
    Sort(Bucket(rows, title), (a, b) => Ahead(a, b))
  }

  /** The primary a matched row gets: its bucket's assignment. */
  function TargetOf(all: seq<Row>, r: Row): Option<Id>
    requires Matched(r)
  {
    var a := Assign(Sorted(all, r.title.value));
    if r.id in a then a[r.id] else None
  }

  /** After the matching: each matched row's target, and nothing yet for the others. */
  function Matching(rows: seq<Row>, all: seq<Row>): Links {
    if rows == [] then map[]
    else
      var n := |rows| - 1;
      var r := rows[n];
      Matching(rows[..n], all)[r.id := if Matched(r) then TargetOf(all, r) else None]
  }

  function Repointed(m: Links, was: Option<Id>): Option<Id> {
    if was.None? then None
    else if was.value in m && m[was.value].Some? then m[was.value]
    else was
  }

  /** The rows outside the matching follow their old group to its new primary. */
  function Follow(rows: seq<Row>, m: Links): Links {
    if rows == [] then m
    else
      var n := |rows| - 1;
      var f := Follow(rows[..n], m);
      if Matched(rows[n]) then f else f[rows[n].id := Repointed(f, rows[n].primary)]
  }

  function Regrouped(rows: seq<Row>): Links {
    Follow(rows, Matching(rows, rows))
  }

  // ---------------------------------------------------------------- the code

  ghost predicate Indexed(kept: seq<Row>, byLocation: map<set<string>, Row>, byPlace: map<Place, seq<Row>>) {
    && (forall k :: k in byLocation <==> k != {} && Exact(kept, k).Some?)
    && (forall k :: k in byLocation ==> Exact(kept, k) == Some(byLocation[k]))
    && (forall p :: (if p in byPlace then byPlace[p] else []) == AtPlace(kept, p))
  }

  /** next(p for p in by_place[place] if p.domain != row.domain) */
  method FindForeign(rows: seq<Row>, domain: string) returns (p: Option<Row>)
    ensures p == FirstForeign(rows, domain)
  {
    var j := 0;
    while j < |rows|
      invariant 0 <= j <= |rows|
      invariant FirstForeign(rows, domain) == FirstForeign(rows[j..], domain)
    {
      if rows[j].site.domain != domain {
        return Some(rows[j]);
      }
      j := j + 1;
    }
    return None;
  }

  method FindByCity(ghost kept: seq<Row>, byLocation: map<set<string>, Row>, byPlace: map<Place, seq<Row>>, r: Row)
    returns (p: Option<Row>)
    requires Indexed(kept, byLocation, byPlace)
    ensures p == ByCity(kept, r.site.places, r.site.domain)
  {
    var places: seq<Place> := r.site.places;
    var i := 0;
    while i < |places|
      invariant 0 <= i <= |places|
      invariant ByCity(kept, places, r.site.domain) == ByCity(kept, places[i..], r.site.domain)
    {
      p := FindForeign(if places[i] in byPlace then byPlace[places[i]] else [], r.site.domain);
      if p.Some? {
        return;
      }
      i := i + 1;
    }
    return None;
  }

  /** by_place[place].append(row) for each of the row's places. */
  method AddToPlaces(byPlace: map<Place, seq<Row>>, r: Row) returns (out: map<Place, seq<Row>>)
    ensures forall p :: (if p in out then out[p] else []) ==
                        (if p in byPlace then byPlace[p] else []) + (if p in r.site.places then [r] else [])
  {
    out := byPlace;
    var places: seq<Place> := r.site.places;
    var i := 0;
    while i < |places|
      invariant 0 <= i <= |places|
      invariant forall p :: (if p in out then out[p] else []) ==
                            (if p in byPlace then byPlace[p] else []) + (if p in places[..i] then [r] else [])
    {
      var p := places[i];
      out := out[p := (if p in out then out[p] else []) + [r]];
      i := i + 1;
    }
    assert places[..i] == places;
  }

  lemma ExactAppend(kept: seq<Row>, r: Row, key: set<string>)
    ensures Exact(kept + [r], key) ==
            if Exact(kept, key).Some? then Exact(kept, key) else if r.site.key == key then Some(r) else None
  {
    assert (kept + [r])[..|kept|] == kept;
  }

  lemma AtPlaceAppend(kept: seq<Row>, r: Row, p: Place)
    ensures AtPlace(kept + [r], p) ==
            AtPlace(kept, p) + if r.site.key != {} && p in r.site.places then [r] else []
  {
    assert (kept + [r])[..|kept|] == kept;
  }

  /** A new primary enters both indexes, unless it has no location. */
  method AddPrimary(ghost kept: seq<Row>, byLocation: map<set<string>, Row>, byPlace: map<Place, seq<Row>>, r: Row)
    returns (byLocation': map<set<string>, Row>, byPlace': map<Place, seq<Row>>)
    requires Indexed(kept, byLocation, byPlace)
    ensures Indexed(kept + [r], byLocation', byPlace')
  {
    byLocation', byPlace' := byLocation, byPlace;
    if r.site.key != {} {
      if r.site.key !in byLocation {
        byLocation' := byLocation[r.site.key := r];
      }
      byPlace' := AddToPlaces(byPlace, r);
    }
    forall k {
      ExactAppend(kept, r, k);
    }
    forall p {
      AtPlaceAppend(kept, r, p);
    }
  }

  /** by_location.get(key), or the first foreign primary in one of the row's cities. */
  method FindPrimary(ghost kept: seq<Row>, byLocation: map<set<string>, Row>, byPlace: map<Place, seq<Row>>, r: Row)
    returns (primary: Option<Row>)
    requires Indexed(kept, byLocation, byPlace)
    ensures primary == Choice(kept, r)
  {
    primary := None;
    if r.site.key != {} {
      if r.site.key in byLocation {
        primary := Some(byLocation[r.site.key]);
      } else {
        primary := FindByCity(kept, byLocation, byPlace, r);
      }
    }
  }

  lemma ScanStep(b: seq<Row>, i: nat)
    requires i < |b|
    ensures Assign(b[..i + 1]) == Assign(b[..i])[b[i].id := IdOf(Choice(Kept(b[..i]), b[i]))]
    ensures Kept(b[..i + 1]) == Kept(b[..i]) + if Choice(Kept(b[..i]), b[i]).None? then [b[i]] else []
  {
    assert b[..i + 1][..i] == b[..i];
  }

  lemma Overlay(start: Links, a: Links, id: Id, to: Option<Id>)
    ensures (start + a)[id := to] == start + a[id := to]
  {
  }

  /** The scan of one sorted bucket. */
  method GroupBucket(b: seq<Row>, start: Links) returns (new': Links)
    ensures new' == start + Assign(b)
  {
    new' := start;
    var byLocation: map<set<string>, Row> := map[];
    var byPlace: map<Place, seq<Row>> := map[];
    var i := 0;
    while i < |b|
      invariant 0 <= i <= |b|
      invariant Indexed(Kept(b[..i]), byLocation, byPlace)
      invariant new' == start + Assign(b[..i])
    {
      var r := b[i];
      ghost var kept := Kept(b[..i]);
      var primary := FindPrimary(kept, byLocation, byPlace, r);
      ScanStep(b, i);
      Overlay(start, Assign(b[..i]), r.id, IdOf(primary));
      new' := new'[r.id := IdOf(primary)];
      if primary.None? {
        byLocation, byPlace := AddPrimary(kept, byLocation, byPlace, r);
      } else {
        assert kept + [] == kept;
      }
      i := i + 1;
    }
    assert b[..i] == b;
  }

  method FillBuckets(rows: seq<Row>) returns (buckets: map<string, seq<Row>>, placeholders: Links)
    ensures forall t :: (if t in buckets then buckets[t] else []) == Bucket(rows, t)
    ensures forall t :: t in buckets ==> buckets[t] != []
    ensures forall id :: id in placeholders <==> exists r :: r in rows && !Matched(r) && r.id == id
    ensures forall id :: id in placeholders ==> placeholders[id] == None
  {
    buckets, placeholders := map[], map[];
    var i := 0;
    while i < |rows|
      invariant 0 <= i <= |rows|
      invariant forall t :: (if t in buckets then buckets[t] else []) == Bucket(rows[..i], t)
      invariant forall t :: t in buckets ==> buckets[t] != []
      invariant forall id :: id in placeholders <==> exists r :: r in rows[..i] && !Matched(r) && r.id == id
      invariant forall id :: id in placeholders ==> placeholders[id] == None
    {
      var r := rows[i];
      assert rows[..i + 1][..i] == rows[..i];
      assert rows[..i + 1] == rows[..i] + [r];
      if Matched(r) {
        var t := r.title.value;
        buckets := buckets[t := (if t in buckets then buckets[t] else []) + [r]];
      } else {
        placeholders := placeholders[r.id := None];
      }
      i := i + 1;
    }
    assert rows[..i] == rows;
  }

  // ---------------------------------------------------------------- the whole company

  lemma {:induction false} AssignKeys(b: seq<Row>)
    ensures forall id :: id in Assign(b) <==> exists r :: r in b && r.id == id
  {
    if b != [] {
      AssignKeys(b[..|b| - 1]);
      assert b == b[..|b| - 1] + [b[|b| - 1]];
    }
  }

  lemma {:induction false} BucketMembers(rows: seq<Row>, title: string)
    ensures forall r :: r in Bucket(rows, title) <==> r in rows && Matched(r) && r.title == Some(title)
  {
    if rows != [] {
      BucketMembers(rows[..|rows| - 1], title);
      assert rows == rows[..|rows| - 1] + [rows[|rows| - 1]];
    }
  }

  lemma SortedMembers(rows: seq<Row>, title: string)
    ensures forall r :: r in Sorted(rows, title) <==> r in rows && Matched(r) && r.title == Some(title)
  {
    BucketMembers(rows, title);
    SameElements(Sorted(rows, title), Bucket(rows, title));
  }

  lemma {:induction false} MatchingAt(rows: seq<Row>, all: seq<Row>)
    requires DistinctIds(rows)
    ensures forall id :: id in Matching(rows, all) <==> exists r :: r in rows && r.id == id
    ensures forall r :: r in rows ==> r.id in Matching(rows, all)
    ensures forall r :: r in rows ==> Matching(rows, all)[r.id] == if Matched(r) then TargetOf(all, r) else None
  {
    if rows != [] {
      MatchingAt(rows[..|rows| - 1], all);
      assert rows == rows[..|rows| - 1] + [rows[|rows| - 1]];
    }
  }

  lemma SameRow(rows: seq<Row>, a: Row, b: Row)
    requires DistinctIds(rows) && a in rows && b in rows && a.id == b.id
    ensures a == b
  {
  }

  /** A row's entry is in: its target, once its title is no longer pending, or a placeholder. */
  ghost predicate RowDone(rows: seq<Row>, pending: set<string>, m: Links, r: Row) {
    if Matched(r) then r.title.value in pending || (r.id in m && m[r.id] == TargetOf(rows, r))
    else r.id in m && m[r.id] == None
  }

  ghost predicate MatchedFor(rows: seq<Row>, pending: set<string>, m: Links) {
    && (forall id :: id in m ==> exists r :: r in rows && r.id == id)
    && (forall r :: r in rows ==> RowDone(rows, pending, m, r))
  }

  lemma InBucketMap(rows: seq<Row>, t: string, r: Row)
    requires DistinctIds(rows) && r in rows
    ensures r.id in Assign(Sorted(rows, t)) <==> Matched(r) && r.title == Some(t)
  {
    SortedMembers(rows, t);
    AssignKeys(Sorted(rows, t));
    if r.id in Assign(Sorted(rows, t)) {
      var q :| q in Sorted(rows, t) && q.id == r.id;
      SameRow(rows, q, r);
    }
  }

  lemma {:induction false} BucketKeys(rows: seq<Row>, t: string, id: Id)
    requires id in Assign(Sorted(rows, t))
    ensures exists r :: r in rows && r.id == id
  {
    SortedMembers(rows, t);
    AssignKeys(Sorted(rows, t));
    var q :| q in Sorted(rows, t) && q.id == id;
  }

  lemma {:induction false} BucketDone(rows: seq<Row>, pending: set<string>, t: string, m: Links)
    requires DistinctIds(rows) && MatchedFor(rows, pending, m)
    ensures MatchedFor(rows, pending - {t}, m + Assign(Sorted(rows, t)))
  {
    var a := Assign(Sorted(rows, t));
    forall id | id in m + a
      ensures exists r :: r in rows && r.id == id
    {
      if id in a {
        BucketKeys(rows, t, id);
      }
    }
    forall r | r in rows
      ensures RowDone(rows, pending - {t}, m + a, r)
    {
      assert RowDone(rows, pending, m, r);
      BucketRow(rows, pending, t, m, r);
    }
  }

  lemma {:induction false} BucketRow(rows: seq<Row>, pending: set<string>, t: string, m: Links, r: Row)
    requires DistinctIds(rows) && r in rows && RowDone(rows, pending, m, r)
    ensures RowDone(rows, pending - {t}, m + Assign(Sorted(rows, t)), r)
  {
    InBucketMap(rows, t, r);
  }

  lemma {:induction false} AllBucketsDone(rows: seq<Row>, m: Links)
    requires DistinctIds(rows) && MatchedFor(rows, {}, m)
    ensures m == Matching(rows, rows)
  {
    MatchingAt(rows, rows);
    var full := Matching(rows, rows);
    forall id
      ensures id in m <==> id in full
      ensures id in m ==> m[id] == full[id]
    {
      if r :| r in rows && r.id == id {
        assert RowDone(rows, {}, m, r);
      }
    }
  }

  lemma {:induction false} NoBucketDone(rows: seq<Row>, buckets: map<string, seq<Row>>, placeholders: Links)
    requires forall t :: (if t in buckets then buckets[t] else []) == Bucket(rows, t)
    requires forall id :: id in placeholders <==> exists r :: r in rows && !Matched(r) && r.id == id
    requires forall id :: id in placeholders ==> placeholders[id] == None
    ensures MatchedFor(rows, buckets.Keys, placeholders)
  {
    forall r: Row | r in rows && Matched(r)
      ensures r.title.value in buckets.Keys
    {
      BucketMembers(rows, r.title.value);
    }
  }

  /** One title's rows: the bucket sorted, then scanned. */
  method MatchTitle(ghost rows: seq<Row>, ghost t: string, bucket: seq<Row>, start: Links) returns (new': Links)
    requires bucket == Bucket(rows, t)
    ensures new' == start + Assign(Sorted(rows, t))
  {
    new' := GroupBucket(Sort(bucket, (x, y) => Ahead(x, y)), start);
  }

  method MatchTitles(rows: seq<Row>) returns (new': Links)
    requires DistinctIds(rows)
    ensures new' == Matching(rows, rows)
  {
    var buckets, placeholders := FillBuckets(rows);
    new' := placeholders;
    var titles := buckets.Keys;
    NoBucketDone(rows, buckets, placeholders);
    while titles != {}
      invariant titles <= buckets.Keys
      invariant MatchedFor(rows, titles, new')
      decreases |titles|
    {
      var t :| t in titles;
      BucketDone(rows, titles, t, new');
      new' := MatchTitle(rows, t, buckets[t], new');
      titles := titles - {t};
    }
    AllBucketsDone(rows, new');
  }

  /** regroup: {posting id: new primary_posting_id} for one company's rows. */
  method RegroupRows(rows: seq<Row>) returns (new': Links)
    requires DistinctIds(rows)
    ensures new' == Regrouped(rows)
  {
    new' := MatchTitles(rows);
    var i := 0;
    while i < |rows|
      invariant 0 <= i <= |rows|
      invariant new' == Follow(rows[..i], Matching(rows, rows))
    {
      var r := rows[i];
      assert rows[..i + 1][..i] == rows[..i];
      if !Matched(r) {
        new' := new'[r.id := Repointed(new', r.primary)];
      }
      i := i + 1;
    }
    assert rows[..i] == rows;
  }
}
