/** collection_lifecycle._duplicates: which collections list nearly the same jobs. The code goes
    through an inverted index and compares only pairs that share a job; the specification
    compares every pair. */
module Duplicates {
  import opened Sorting

  /** A collection key, as its place in string order. */
  type Key = nat
  type JobId = nat
  type Pair = (Key, Key)

  function Longer(a: nat, b: nat): nat {
    if a >= b then a else b
  }

  /** near_duplicate_share is 0.9. */
  predicate NearCopy(a: set<JobId>, b: set<JobId>) {
    10 * |a * b| >= 9 * Longer(|a|, |b|)
  }

  /** The definition: another collection with a job in common, sharing at least nine tenths of
      the longer list. */
  predicate Duplicate(jobs: map<Key, set<JobId>>, a: Key, b: Key) {
    a in jobs && b in jobs && a != b && jobs[a] * jobs[b] != {} && NearCopy(jobs[a], jobs[b])
  }

  predicate Increasing(s: seq<Key>) {
    forall i, j :: 0 <= i < j < |s| ==> s[i] < s[j]
  }

  function At(m: map<Pair, nat>, p: Pair): nat {
    if p in m then m[p] else 0
  }

  function Listed(out: map<Key, seq<Key>>, k: Key): seq<Key> {
    if k in out then out[k] else []
  }

  // ---------------------------------------------------------------- by_job

  ghost predicate ByJob(jobs: map<Key, set<JobId>>, done: set<Key>, byJob: map<JobId, seq<Key>>) {
    && (forall id :: id in byJob ==> forall i, j :: 0 <= i < j < |byJob[id]| ==> byJob[id][i] != byJob[id][j])
    && (forall id, k :: id in byJob && k in byJob[id] ==> k in done && k in jobs && id in jobs[k])
    && (forall k, id :: k in done && k in jobs && id in jobs[k] ==> id in byJob && k in byJob[id])
  }

  method IndexKey(jobs: map<Key, set<JobId>>, done: set<Key>, byJob: map<JobId, seq<Key>>, key: Key)
    returns (out: map<JobId, seq<Key>>)
    requires key in jobs && key !in done && ByJob(jobs, done, byJob)
    ensures ByJob(jobs, done + {key}, out)
  {
    out := byJob;
    var ids := jobs[key];
    while ids != {}
      invariant ids <= jobs[key]
      invariant forall id :: id in out <==> id in byJob || id in jobs[key] - ids
      invariant forall id :: id in out && id !in jobs[key] - ids ==> out[id] == byJob[id]
      invariant forall id :: id in jobs[key] - ids ==> out[id] == (if id in byJob then byJob[id] else []) + [key]
      decreases |ids|
    {
      var id :| id in ids;
      out := out[id := (if id in out then out[id] else []) + [key]];
      ids := ids - {id};
    }
  }

  method IndexByJob(jobs: map<Key, set<JobId>>) returns (byJob: map<JobId, seq<Key>>)
    ensures ByJob(jobs, jobs.Keys, byJob)
  {
    byJob := map[];
    var keys := jobs.Keys;
    while keys != {}
      invariant keys <= jobs.Keys
      invariant ByJob(jobs, jobs.Keys - keys, byJob)
      decreases |keys|
    {
      var key :| key in keys;
      assert jobs.Keys - keys + {key} == jobs.Keys - (keys - {key});
      byJob := IndexKey(jobs, jobs.Keys - keys, byJob, key);
      keys := keys - {key};
    }
    assert jobs.Keys - keys == jobs.Keys;
  }

  // ---------------------------------------------------------------- the counter of pairs

  ghost predicate Visited(s: seq<Key>, i: int, j: int, p: Pair) {
    exists x, y :: 0 <= x < y < |s| && (x < i || (x == i && y < j)) && p == (s[x], s[y])
  }

  /** Count every combination of two of one job's keys. */
  method CountPairs(shared: map<Pair, nat>, s: seq<Key>) returns (out: map<Pair, nat>)
    requires Increasing(s) && forall p :: p in shared ==> shared[p] > 0
    ensures forall p :: p in out ==> out[p] > 0
    ensures forall p: Pair :: At(out, p) == At(shared, p) + if p.0 < p.1 && p.0 in s && p.1 in s then 1 else 0
  {
    out := shared;
    forall p: Pair
      ensures !Visited(s, 0, 1, p)
    {
    }
    for i := 0 to |s|
      invariant forall p :: p in out ==> out[p] > 0
      invariant forall p :: At(out, p) == At(shared, p) + if Visited(s, i, i + 1, p) then 1 else 0
    {
      for j := i + 1 to |s|
        invariant forall p :: p in out ==> out[p] > 0
        invariant forall p :: At(out, p) == At(shared, p) + if Visited(s, i, j, p) then 1 else 0
      {
        NextPair(s, i, j);
        out := out[(s[i], s[j]) := At(out, (s[i], s[j])) + 1];
      }
      RowDone(s, i);
    }
    AllPairs(s);
  }

  lemma {:induction false} NextPair(s: seq<Key>, i: int, j: int)
    requires Increasing(s) && 0 <= i < j < |s|
    ensures !Visited(s, i, j, (s[i], s[j]))
    ensures forall p :: Visited(s, i, j + 1, p) <==> Visited(s, i, j, p) || p == (s[i], s[j])
  {
    forall p | Visited(s, i, j + 1, p)
      ensures Visited(s, i, j, p) || p == (s[i], s[j])
    {
      var x, y :| 0 <= x < y < |s| && (x < i || (x == i && y < j + 1)) && p == (s[x], s[y]);
    }
    assert Visited(s, i, j + 1, (s[i], s[j]));
  }

  lemma {:induction false} RowDone(s: seq<Key>, i: int)
    requires 0 <= i < |s|
    ensures forall p :: Visited(s, i, |s|, p) <==> Visited(s, i + 1, i + 2, p)
  {
    forall p | Visited(s, i + 1, i + 2, p)
      ensures Visited(s, i, |s|, p)
    {
      var x, y :| 0 <= x < y < |s| && (x < i + 1 || (x == i + 1 && y < i + 2)) && p == (s[x], s[y]);
    }
  }

  lemma {:induction false} AllPairs(s: seq<Key>)
    requires Increasing(s)
    ensures forall p: Pair :: Visited(s, |s|, |s| + 1, p) <==> p.0 < p.1 && p.0 in s && p.1 in s
  {
    forall p: Pair | p.0 < p.1 && p.0 in s && p.1 in s
      ensures Visited(s, |s|, |s| + 1, p)
    {
      var x :| 0 <= x < |s| && s[x] == p.0;
      var y :| 0 <= y < |s| && s[y] == p.1;
    }
  }

  ghost function SharedIds(byJob: map<JobId, seq<Key>>, done: set<JobId>, p: Pair): set<JobId> {
    set id | id in done && id in byJob && p.0 in byJob[id] && p.1 in byJob[id]
  }

  ghost predicate Counted(byJob: map<JobId, seq<Key>>, done: set<JobId>, shared: map<Pair, nat>) {
    && (forall p :: p in shared ==> shared[p] > 0)
    && (forall p: Pair :: At(shared, p) == if p.0 < p.1 then |SharedIds(byJob, done, p)| else 0)
  }

  function SortKeys(s: seq<Key>): seq<Key> {
    Sort(s, (a, b) => a <= b)
  }

  lemma {:induction false} SortKeysIncreasing(s: seq<Key>)
    requires forall i, j :: 0 <= i < j < |s| ==> s[i] != s[j]
    ensures Increasing(SortKeys(s))
    ensures forall k :: k in SortKeys(s) <==> k in s
  {
    SortSorted(s, (a: Key, b: Key) => a <= b);
    DistinctSorted(s, SortKeys(s));
    SameElements(s, SortKeys(s));
  }

  lemma {:induction false} SharedGrows(byJob: map<JobId, seq<Key>>, done: set<JobId>, id: JobId, p: Pair)
    requires id in byJob && id !in done
    ensures |SharedIds(byJob, done + {id}, p)| ==
            |SharedIds(byJob, done, p)| + if p.0 in byJob[id] && p.1 in byJob[id] then 1 else 0
  {
    if p.0 in byJob[id] && p.1 in byJob[id] {
      assert SharedIds(byJob, done + {id}, p) == SharedIds(byJob, done, p) + {id};
    } else {
      assert SharedIds(byJob, done + {id}, p) == SharedIds(byJob, done, p);
    }
  }

  method CountShared(byJob: map<JobId, seq<Key>>) returns (shared: map<Pair, nat>)
    requires forall id :: id in byJob ==> forall i, j :: 0 <= i < j < |byJob[id]| ==> byJob[id][i] != byJob[id][j]
    ensures Counted(byJob, byJob.Keys, shared)
  {
    shared := map[];
    var ids := byJob.Keys;
    assert forall p :: SharedIds(byJob, byJob.Keys - ids, p) == {};
    while ids != {}
      invariant ids <= byJob.Keys && Counted(byJob, byJob.Keys - ids, shared)
      decreases |ids|
    {
      var id :| id in ids;
      ghost var done := byJob.Keys - ids;
      assert done + {id} == byJob.Keys - (ids - {id});
      SortKeysIncreasing(byJob[id]);
      forall p {
        SharedGrows(byJob, done, id, p);
      }
      shared := CountPairs(shared, SortKeys(byJob[id]));
      ids := ids - {id};
    }
    assert byJob.Keys - ids == byJob.Keys;
  }

  // ---------------------------------------------------------------- the answer

  predicate PairLe(p: Pair, q: Pair) {
    p.0 < q.0 || (p.0 == q.0 && p.1 <= q.1)
  }

  method Enumerate(ps: set<Pair>) returns (s: seq<Pair>)
    ensures forall p: Pair :: p in s <==> p in ps
    ensures forall i, j :: 0 <= i < j < |s| ==> s[i] != s[j]
  {
    s := [];
    var left := ps;
    while left != {}
      invariant left <= ps
      invariant forall p: Pair :: p in s <==> p in ps - left
      invariant forall i, j :: 0 <= i < j < |s| ==> s[i] != s[j]
      decreases |left|
    {
      var p :| p in left;
      s := s + [p];
      left := left - {p};
    }
  }

  predicate PairNear(jobs: map<Key, set<JobId>>, p: Pair) {
    p.0 < p.1 && Duplicate(jobs, p.0, p.1)
  }

  function Ordered(a: Key, b: Key): Pair {
    if a < b then (a, b) else (b, a)
  }

  /** Each key lists, in order, its duplicates among the pairs seen. */
  ghost predicate ListsSeen(jobs: map<Key, set<JobId>>, seen: seq<Pair>, out: map<Key, seq<Key>>) {
    && (forall k :: Increasing(Listed(out, k)))
    && (forall k, x :: x in Listed(out, k) <==> k != x && Ordered(k, x) in seen && PairNear(jobs, Ordered(k, x)))
  }

  /** What the n-th pair adds to a key's list. */
  function AddedBy(jobs: map<Key, set<JobId>>, p: Pair, k: Key): seq<Key> {
    if !PairNear(jobs, p) then [] else if k == p.0 then [p.1] else if k == p.1 then [p.0] else []
  }

  ghost predicate PairsInOrder(pairs: seq<Pair>) {
    forall i, j :: 0 <= i < j < |pairs| ==> PairLe(pairs[i], pairs[j]) && pairs[i] != pairs[j]
  }

  /** A list stays in order. */
  lemma {:induction false} ListGrows(jobs: map<Key, set<JobId>>, pairs: seq<Pair>, n: nat, out: map<Key, seq<Key>>, k: Key)
    requires n < |pairs| && ListsSeen(jobs, pairs[..n], out) && PairsInOrder(pairs) && pairs[n].0 < pairs[n].1
    ensures Increasing(Listed(out, k) + AddedBy(jobs, pairs[n], k))
  {
    if k == pairs[n].0 {
      EarlierBefore(jobs, pairs, n, out, k, pairs[n].1);
    } else if k == pairs[n].1 {
      EarlierBefore(jobs, pairs, n, out, k, pairs[n].0);
    }
  }

  /** And holds the duplicates among one pair more. */
  lemma {:induction false} ListHolds(
    jobs: map<Key, set<JobId>>, pairs: seq<Pair>, n: nat, out: map<Key, seq<Key>>, k: Key, x: Key)
    requires n < |pairs| && ListsSeen(jobs, pairs[..n], out) && pairs[n].0 < pairs[n].1
    ensures x in Listed(out, k) + AddedBy(jobs, pairs[n], k) <==>
            k != x && Ordered(k, x) in pairs[..n + 1] && PairNear(jobs, Ordered(k, x))
  {
    assert pairs[..n + 1] == pairs[..n] + [pairs[n]];
    assert x in AddedBy(jobs, pairs[n], k) <==> k != x && Ordered(k, x) == pairs[n] && PairNear(jobs, pairs[n]);
  }

  lemma {:induction false} ListPair(
    jobs: map<Key, set<JobId>>, pairs: seq<Pair>, n: nat, out: map<Key, seq<Key>>, out': map<Key, seq<Key>>)
    requires n < |pairs| && ListsSeen(jobs, pairs[..n], out) && PairsInOrder(pairs) && pairs[n].0 < pairs[n].1
    requires forall k :: Listed(out', k) == Listed(out, k) + AddedBy(jobs, pairs[n], k)
    ensures ListsSeen(jobs, pairs[..n + 1], out')
  {
    forall k
      ensures Increasing(Listed(out', k))
    {
      ListGrows(jobs, pairs, n, out, k);
    }
    forall k, x
      ensures x in Listed(out', k) <==> k != x && Ordered(k, x) in pairs[..n + 1] && PairNear(jobs, Ordered(k, x))
    {
      ListHolds(jobs, pairs, n, out, k, x);
    }
  }

  /** What a key has listed so far comes before the partner the next pair brings it. */
  lemma {:induction false} EarlierBefore(
    jobs: map<Key, set<JobId>>, pairs: seq<Pair>, n: nat, out: map<Key, seq<Key>>, k: Key, x: Key)
    requires n < |pairs| && ListsSeen(jobs, pairs[..n], out)
    requires forall i, j :: 0 <= i < j < |pairs| ==> PairLe(pairs[i], pairs[j]) && pairs[i] != pairs[j]
    requires k != x && pairs[n] == Ordered(k, x)
    ensures forall i :: 0 <= i < |Listed(out, k)| ==> Listed(out, k)[i] < x
  {
    forall i | 0 <= i < |Listed(out, k)|
      ensures Listed(out, k)[i] < x
    {
      var e := Listed(out, k)[i];
      assert e in Listed(out, k);
      var m :| 0 <= m < n && pairs[m] == Ordered(k, e);
      assert PairLe(pairs[m], pairs[n]) && pairs[m] != pairs[n];
    }
  }

  ghost predicate SharedPairs(jobs: map<Key, set<JobId>>, shared: map<Pair, nat>) {
    && (forall p: Pair :: p in shared <==> p.0 < p.1 && p.0 in jobs && p.1 in jobs && jobs[p.0] * jobs[p.1] != {})
    && (forall p: Pair :: p in shared ==> shared[p] == |jobs[p.0] * jobs[p.1]|)
  }

  /** sorted(shared.items()) */
  method SortedPairs(ps: set<Pair>) returns (items: seq<Pair>)
    ensures forall p: Pair :: p in items <==> p in ps
    ensures forall i, j :: 0 <= i < j < |items| ==> PairLe(items[i], items[j]) && items[i] != items[j]
  {
    var unsorted := Enumerate(ps);
    items := Sort(unsorted, (p, q) => PairLe(p, q));
    SortSorted(unsorted, (p: Pair, q: Pair) => PairLe(p, q));
    DistinctSorted(unsorted, items);
    SameElements<Pair>(unsorted, items);
    forall p: Pair
      ensures p in items <==> p in ps
    {
      assert p in items <==> p in multiset(items);
      assert p in unsorted <==> p in multiset(unsorted);
    }
  }

  method ListPairs(jobs: map<Key, set<JobId>>, shared: map<Pair, nat>, items: seq<Pair>) returns (out: map<Key, seq<Key>>)
    requires SharedPairs(jobs, shared) && forall p :: p in items ==> p in shared
    requires forall i, j :: 0 <= i < j < |items| ==> PairLe(items[i], items[j]) && items[i] != items[j]
    ensures ListsSeen(jobs, items, out)
  {
    out := map[];
    var n := 0;
    while n < |items|
      invariant 0 <= n <= |items|
      invariant ListsSeen(jobs, items[..n], out)
    {
      var (a, b) := items[n];
      assert items[n] in items;
      ghost var before := out;
      if 10 * shared[(a, b)] >= 9 * Longer(|jobs[a]|, |jobs[b]|) {
        out := out[a := Listed(out, a) + [b]];
        out := out[b := Listed(out, b) + [a]];
      }
      ListPair(jobs, items, n, before, out);
      n := n + 1;
    }
    assert items[..n] == items;
  }

  /** _duplicates(jobs). */
  method FindDuplicates(jobs: map<Key, set<JobId>>) returns (out: map<Key, seq<Key>>)
    ensures forall a, b :: b in Listed(out, a) <==>
                             && a in jobs && b in jobs && a != b && jobs[a] * jobs[b] != {}
                             && 10 * |jobs[a] * jobs[b]| >= 9 * |jobs[a]| && 10 * |jobs[a] * jobs[b]| >= 9 * |jobs[b]|
    ensures forall a :: Increasing(Listed(out, a))
  {
    var byJob := IndexByJob(jobs);
    var shared := CountShared(byJob);
    SharedIsIntersection(jobs, byJob, shared);
    var items := SortedPairs(shared.Keys);
    out := ListPairs(jobs, shared, items);
    forall a, b
      ensures b in Listed(out, a) <==> Duplicate(jobs, a, b)
    {
      DuplicateSymmetric(jobs, a, b);
    }
  }

  /** The counter holds exactly the pairs with a job in common, each with how many. */
  lemma {:induction false} SharedIsIntersection(jobs: map<Key, set<JobId>>, byJob: map<JobId, seq<Key>>, shared: map<Pair, nat>)
    requires ByJob(jobs, jobs.Keys, byJob) && Counted(byJob, byJob.Keys, shared)
    ensures SharedPairs(jobs, shared)
  {
    forall p: Pair
      ensures p in shared <==> p.0 < p.1 && p.0 in jobs && p.1 in jobs && jobs[p.0] * jobs[p.1] != {}
      ensures p in shared ==> shared[p] == |jobs[p.0] * jobs[p.1]|
    {
      var ids := SharedIds(byJob, byJob.Keys, p);
      assert At(shared, p) == if p.0 < p.1 then |ids| else 0;
      if p.0 in jobs && p.1 in jobs {
        assert ids == jobs[p.0] * jobs[p.1];
      } else {
        assert ids == {};
      }
    }
  }

  /** Being duplicates goes both ways, and no collection duplicates itself. */
  lemma {:induction false} DuplicateSymmetric(jobs: map<Key, set<JobId>>, a: Key, b: Key)
    ensures Duplicate(jobs, a, b) <==> Duplicate(jobs, b, a)
    ensures !Duplicate(jobs, a, a)
    ensures Duplicate(jobs, a, b) <==> a != b && PairNear(jobs, Ordered(a, b))
  {
    if a in jobs && b in jobs {
      assert jobs[a] * jobs[b] == jobs[b] * jobs[a];
    }
  }

  /** Skipping pairs with no job in common only ever skips pairs of two empty collections. */
  lemma {:induction false} OnlyEmptyPairsSkipped(jobs: map<Key, set<JobId>>, a: Key, b: Key)
    requires a in jobs && b in jobs && a != b
    ensures NearCopy(jobs[a], jobs[b]) <==> Duplicate(jobs, a, b) || (jobs[a] == {} && jobs[b] == {})
  {
    var both := jobs[a] * jobs[b];
    if both == {} {
      assert |both| == 0;
      assert |jobs[a]| == 0 <==> jobs[a] == {};
      assert |jobs[b]| == 0 <==> jobs[b] == {};
    } else {
      assert jobs[a] != {};
    }
  }
}
