/** The sorted worker index behind placementHeap and placementPredictHeap
    (internal/control/scheduler_placement.go:12-31,144-187,330-376). One structure serves
    both: predicted latency ranks as it is, locality ranks by its negated score. */
module PlacementIndex {
  import opened Basics

  datatype Entry = Entry(worker: string, rank: int)

  datatype Index = Index(entries: seq<Entry>, byID: map<string, nat>)

  const NO_INDEX: Index := Index([], map[])

  /** Lower ranks first, worker IDs break ties. */
  predicate Ahead(a: Entry, b: Entry) {
    a.rank < b.rank || (a.rank == b.rank && Before(a.worker, b.worker))
  }

  predicate Ordered(xs: seq<Entry>) {
    forall i, j :: 0 <= i < j < |xs| ==> Ahead(xs[i], xs[j])
  }

  predicate DistinctWorkers(xs: seq<Entry>) {
    forall i, j :: 0 <= i < j < |xs| ==> xs[i].worker != xs[j].worker
  }

  function Insert(e: Entry, xs: seq<Entry>): seq<Entry> {
    if xs == [] then [e]
    else if Ahead(e, xs[0]) then [e] + xs
    else [xs[0]] + Insert(e, xs[1..])
  }

  function Sort(xs: seq<Entry>): seq<Entry> {
    if xs == [] then [] else Insert(xs[|xs| - 1], Sort(xs[..|xs| - 1]))
  }

  /** The rebuilt byID map. */
  function Positions(xs: seq<Entry>): map<string, nat> {
    if xs == [] then map[] else Positions(xs[..|xs| - 1])[xs[|xs| - 1].worker := |xs| - 1]
  }

  function Rebuilt(xs: seq<Entry>): Index {
    Index(xs, Positions(xs))
  }

  predicate Points(x: Index, worker: string) {
    worker in x.byID && x.byID[worker] < |x.entries| && x.entries[x.byID[worker]].worker == worker
  }

  function Cut(xs: seq<Entry>, i: nat): seq<Entry>
    requires i < |xs|
  {
    xs[..i] + xs[i + 1..]
  }

  function Removed(x: Index, worker: string): Index {
    if !Points(x, worker) then x.(byID := x.byID - {worker})
    else Rebuilt(Cut(x.entries, x.byID[worker]))
  }

  /** upsert; a rank at or above `limit` is the sentinel of a worker without capacity. */
  function Upserted(x: Index, worker: string, rank: int, limit: int): Index {
    if rank >= limit then Removed(x, worker)
    else if Points(x, worker) then Rebuilt(Sort(x.entries[x.byID[worker] := Entry(worker, rank)]))
    else Rebuilt(Sort(x.entries + [Entry(worker, rank)]))
  }

  /** Sorted without duplicates, byID the inverse of the positions, and exactly the given
      scores. */
  predicate Lists(x: Index, scores: map<string, int>) {
    && Ordered(x.entries) && DistinctWorkers(x.entries)
    && (forall i :: 0 <= i < |x.entries| ==> x.entries[i].worker in x.byID && x.byID[x.entries[i].worker] == i)
    && (forall w :: w in x.byID ==> Points(x, w))
    && scores.Keys == x.byID.Keys
    && (forall w :: w in scores && Points(x, w) ==> x.entries[x.byID[w]].rank == scores[w])
  }

  /** Entries as a set say the same as scores. */
  predicate Same(xs: seq<Entry>, scores: map<string, int>) {
    && (forall e :: e in xs ==> e.worker in scores && scores[e.worker] == e.rank)
    && (forall w :: w in scores ==> Entry(w, scores[w]) in xs)
  }

  lemma {:induction false} InsertMembers(e: Entry, xs: seq<Entry>)
    ensures |Insert(e, xs)| == |xs| + 1
    ensures forall x :: x in Insert(e, xs) <==> x == e || x in xs
  {
    if xs != [] && !Ahead(e, xs[0]) {
      InsertMembers(e, xs[1..]);
      assert xs == [xs[0]] + xs[1..];
    }
  }

  lemma AheadTotal(a: Entry, b: Entry)
    requires a.worker != b.worker
    ensures Ahead(a, b) || Ahead(b, a)
  {
    BeforeTotal(a.worker, b.worker);
  }

  lemma AheadTransitive(a: Entry, b: Entry, c: Entry)
    requires Ahead(a, b) && Ahead(b, c)
    ensures Ahead(a, c)
  {
    if a.rank == b.rank == c.rank {
      BeforeTransitive(a.worker, b.worker, c.worker);
    }
  }

  lemma {:induction false} InsertOrdered(e: Entry, xs: seq<Entry>)
    requires Ordered(xs) && forall x :: x in xs ==> x.worker != e.worker
    ensures Ordered(Insert(e, xs))
  {
    hide Ahead;
    if xs != [] {
      if Ahead(e, xs[0]) {
        forall j | 1 <= j < |xs| ensures Ahead(e, xs[j]) {
          AheadTransitive(e, xs[0], xs[j]);
        }
      } else {
        assert xs[0] in xs;
        AheadTotal(e, xs[0]);
        InsertOrdered(e, xs[1..]);
        InsertMembers(e, xs[1..]);
        var rest := Insert(e, xs[1..]);
        forall j | 0 <= j < |rest| ensures Ahead(xs[0], rest[j]) {
          assert rest[j] in rest;
          if rest[j] != e {
            var k :| 0 <= k < |xs[1..]| && xs[1..][k] == rest[j];
            assert xs[k + 1] == rest[j];
          }
        }
      }
    }
  }

  lemma {:induction false} SortMembers(xs: seq<Entry>)
    ensures |Sort(xs)| == |xs| && forall x :: x in Sort(xs) <==> x in xs
  {
    if xs != [] {
      var before := xs[..|xs| - 1];
      SortMembers(before);
      InsertMembers(xs[|xs| - 1], Sort(before));
      assert xs == before + [xs[|xs| - 1]];
    }
  }

  lemma {:induction false} SortOrdered(xs: seq<Entry>)
    requires DistinctWorkers(xs)
    ensures Ordered(Sort(xs))
  {
    hide Ahead, Insert;
    if xs != [] {
      var before, e := xs[..|xs| - 1], xs[|xs| - 1];
      SortOrdered(before);
      SortMembers(before);
      forall x | x in Sort(before) ensures x.worker != e.worker {
        var k :| 0 <= k < |before| && before[k] == x;
        assert xs[k].worker != xs[|xs| - 1].worker;
      }
      InsertOrdered(e, Sort(before));
    }
  }

  /** A list whose entries agree with a map and are in order has distinct workers. */
  lemma OrderedDistinct(xs: seq<Entry>, scores: map<string, int>)
    requires Ordered(xs) && forall e :: e in xs ==> e.worker in scores && scores[e.worker] == e.rank
    ensures DistinctWorkers(xs)
  {
    forall i, j | 0 <= i < j < |xs| ensures xs[i].worker != xs[j].worker {
      assert xs[i] in xs && xs[j] in xs && Ahead(xs[i], xs[j]);
      if Before(xs[i].worker, xs[j].worker) {
        BeforeAsymmetric(xs[i].worker, xs[j].worker);
      }
    }
  }

  lemma {:induction false} PositionsAt(xs: seq<Entry>)
    requires DistinctWorkers(xs)
    ensures forall i :: 0 <= i < |xs| ==> xs[i].worker in Positions(xs) && Positions(xs)[xs[i].worker] == i
    ensures forall w :: w in Positions(xs) ==> Positions(xs)[w] < |xs| && xs[Positions(xs)[w]].worker == w
  {
    if xs != [] {
      PositionsAt(xs[..|xs| - 1]);
    }
  }

  lemma RebuiltLists(xs: seq<Entry>, scores: map<string, int>)
    requires Ordered(xs) && Same(xs, scores)
    ensures Lists(Rebuilt(xs), scores)
  {
    hide Ahead, Positions;
    OrderedDistinct(xs, scores);
    PositionsAt(xs);
    var x := Rebuilt(xs);
    forall w | w in scores ensures w in x.byID && xs[x.byID[w]].rank == scores[w] {
      var e := Entry(w, scores[w]);
      var i :| 0 <= i < |xs| && xs[i] == e;
      assert x.byID[xs[i].worker] == i;
    }
    forall w | w in x.byID ensures w in scores {
      assert xs[x.byID[w]] in xs;
    }
  }

  lemma ListsSame(x: Index, scores: map<string, int>)
    requires Lists(x, scores)
    ensures Same(x.entries, scores) && Ordered(x.entries) && DistinctWorkers(x.entries)
    ensures forall w :: Points(x, w) <==> w in scores
  {
    forall e | e in x.entries ensures e.worker in scores && scores[e.worker] == e.rank {
      var i :| 0 <= i < |x.entries| && x.entries[i] == e;
    }
  }

  lemma RemoveLists(x: Index, scores: map<string, int>, worker: string)
    requires Lists(x, scores)
    ensures Lists(Removed(x, worker), scores - {worker})
  {
    hide Ahead, Positions, Lists;
    ListsSame(x, scores);
    if Points(x, worker) {
      var i := x.byID[worker];
      var rest := Cut(x.entries, i);
      RebuiltLists(rest, scores - {worker});
    } else {
      RemoveAbsent(x, scores, worker);
    }
  }

  lemma RemoveAbsent(x: Index, scores: map<string, int>, worker: string)
    requires Lists(x, scores) && !Points(x, worker)
    ensures x.byID - {worker} == x.byID && scores - {worker} == scores
  {}

  /** The new scores are the old ones with this worker's replaced, added or, at the
      sentinel, removed. */
  lemma UpsertLists(x: Index, scores: map<string, int>, worker: string, rank: int, limit: int)
    requires Lists(x, scores)
    ensures Lists(Upserted(x, worker, rank, limit),
                  if rank >= limit then scores - {worker} else scores[worker := rank])
  {
    hide Ahead, Positions, Lists, Same, Ordered, DistinctWorkers;
    if rank >= limit {
      RemoveLists(x, scores, worker);
    } else {
      ListsSame(x, scores);
      var xs := if Points(x, worker) then x.entries[x.byID[worker] := Entry(worker, rank)]
                else x.entries + [Entry(worker, rank)];
      if Points(x, worker) {
        ReplaceSame(x.entries, scores, x.byID[worker], rank);
      } else {
        AppendSame(x.entries, scores, worker, rank);
      }
      SortOrdered(xs);
      SortSame(xs, scores[worker := rank]);
      RebuiltLists(Sort(xs), scores[worker := rank]);
    }
  }

  lemma SortSame(xs: seq<Entry>, scores: map<string, int>)
    requires Same(xs, scores)
    ensures Same(Sort(xs), scores)
  {
    SortMembers(xs);
  }

  lemma ReplaceSame(xs: seq<Entry>, scores: map<string, int>, i: nat, rank: int)
    requires DistinctWorkers(xs) && Same(xs, scores) && i < |xs|
    ensures var w := xs[i].worker;
            var ys := xs[i := Entry(w, rank)];
            DistinctWorkers(ys) && Same(ys, scores[w := rank])
  {
    var w := xs[i].worker;
    var ys := xs[i := Entry(w, rank)];
    var more := scores[w := rank];
    forall e | e in ys ensures e.worker in more && more[e.worker] == e.rank {
      var k :| 0 <= k < |ys| && ys[k] == e;
      assert k != i ==> xs[k] in xs;
    }
    forall v | v in more ensures Entry(v, more[v]) in ys {
      if v == w {
        assert ys[i] == Entry(v, more[v]);
      } else {
        var k :| 0 <= k < |xs| && xs[k] == Entry(v, scores[v]);
        assert ys[k] == xs[k];
      }
    }
  }

  lemma AppendSame(xs: seq<Entry>, scores: map<string, int>, worker: string, rank: int)
    requires DistinctWorkers(xs) && Same(xs, scores) && worker !in scores
    ensures var ys := xs + [Entry(worker, rank)];
            DistinctWorkers(ys) && Same(ys, scores[worker := rank])
  {
    var ys, more := xs + [Entry(worker, rank)], scores[worker := rank];
    forall i, j | 0 <= i < j < |ys| ensures ys[i].worker != ys[j].worker {
      if j == |xs| {
        assert xs[i] in xs;
      }
    }
    forall v | v in more ensures Entry(v, more[v]) in ys {
      if v != worker {
        assert Entry(v, scores[v]) in xs;
      }
    }
  }
}
