/** The incrementally maintained placement indexes and the choices read from them
    (internal/control/scheduler.go:302-329, internal/control/scheduler_placement.go:53-142,226-328,
    internal/control/llm.go:351-398). */
module Placement {
  import opened Basics
  import opened SchedulerState
  import opened PlacementIndex
  import opened PlacementScores

  class PlacementStore {
    var views: Views
    var byModel: map<ModelKey, Heaps>
    var stats: StatsMap

    predicate Valid()
      reads this
    {
      && (forall w :: w in views ==> w != "" && views[w].worker == w && views[w].capacity > 0
                                     && views[w].cached == KeySet(views[w].raw))
      && (forall key :: key in byModel ==> Indexed(byModel[key], views, stats, key))
    }

    constructor ()
      ensures Valid() && views == map[] && byModel == map[]
    {
      views, byModel, stats := map[], map[], map[];
    }

    /** ensureModelPlacementLocked: a missing model is indexed from every view. */
    method Ensure(key: ModelKey) returns (h: Heaps)
      requires forall w :: w in views ==> views[w].capacity > 0
      modifies this`byModel
      ensures byModel == old(byModel)[key := h]
      ensures if key in old(byModel) then h == old(byModel)[key] else Indexed(h, views, stats, key)
    {
      hide Indexed, HeapsUpserted;
      if key in byModel {
        assert byModel == byModel[key := byModel[key]];
        return byModel[key];
      }
      h := NO_HEAPS;
      EmptyIndexed(stats, key);
      var todo := views.Keys;
      ghost var done: Views := map[];
      while todo != {}
        invariant todo <= views.Keys && done == (map w | w in views && w !in todo :: views[w])
        invariant Indexed(h, done, stats, key) && byModel == old(byModel)
      {
        var w :| w in todo;
        UpsertIndexed(h, done, stats, stats, key, w, views[w]);
        h := HeapsUpserted(h, views[w], w, key in views[w].cached, StatsOf(stats, key, w));
        todo := todo - {w};
        done := done[w := views[w]];
      }
      assert done == views;
      byModel := byModel[key := h];
    }

    /** upsertWorkerModelPlacementLocked. The index of the model may lag behind in this one
        worker's entry: its view `before` and statistics `old_` may be older ones. */
    method UpsertModel(key: ModelKey, worker: string, ghost before: Views, ghost old_: StatsMap)
      requires forall w :: w in views ==> views[w].capacity > 0
      requires worker in views && before[worker := views[worker]] == views && SameStatsBut(old_, stats, key, worker)
      requires key in byModel ==> Indexed(byModel[key], before, old_, key)
      modifies this`byModel
      ensures key in byModel && byModel == old(byModel)[key := byModel[key]] && Indexed(byModel[key], views, stats, key)
    {
      hide Indexed, HeapsUpserted, SameStatsBut;
      var h := Ensure(key);
      var view := views[worker];
      if key in old(byModel) {
        UpsertIndexed(h, before, old_, stats, key, worker, view);
      } else {
        SameStats(stats, key, worker);
        UpsertIndexed(h, views, stats, stats, key, worker, view);
        assert views[worker := view] == views;
      }
      byModel := byModel[key := HeapsUpserted(h, view, worker, key in view.cached, StatsOf(stats, key, worker))];
    }

    lemma SameStats(a: StatsMap, key: ModelKey, worker: string)
      ensures SameStatsBut(a, a, key, worker)
    {}

    /** removeWorkerPlacementIndexLocked. */
    method RemoveWorker(worker: string)
      requires forall key :: key in byModel ==> Indexed(byModel[key], views, stats, key)
      modifies this`byModel
      ensures byModel.Keys == old(byModel.Keys)
      ensures forall key :: key in byModel ==> Indexed(byModel[key], views - {worker}, stats, key)
    {
      hide Indexed, HeapsRemoved;
      var todo := byModel.Keys;
      while todo != {}
        invariant todo <= byModel.Keys == old(byModel.Keys)
        invariant forall key :: key in byModel ==>
          Indexed(byModel[key], if key in todo then views else views - {worker}, stats, key)
      {
        var key :| key in todo;
        RemoveIndexed(byModel[key], views, stats, key, worker);
        byModel := byModel[key := HeapsRemoved(byModel[key], worker)];
        todo := todo - {key};
      }
    }

    /** refreshWorkerPlacementLocked over the affected models. */
    method Refresh(worker: string, affected: set<ModelKey>, ghost before: Views)
      requires forall w :: w in views ==> views[w].capacity > 0
      requires worker in views && before[worker := views[worker]] == views && byModel.Keys <= affected
      requires forall key :: key in byModel ==> Indexed(byModel[key], before, stats, key)
      modifies this`byModel
      ensures byModel.Keys == affected
      ensures forall key :: key in byModel ==> Indexed(byModel[key], views, stats, key)
    {
      hide Indexed, SameStatsBut;
      var todo := affected;
      while todo != {}
        invariant todo <= affected && affected - todo <= byModel.Keys <= affected
        invariant forall key :: key in byModel ==>
                    Indexed(byModel[key], if key in todo then before else views, stats, key)
      {
        var key :| key in todo;
        SameStats(stats, key, worker);
        UpsertModel(key, worker, before, stats);
        todo := todo - {key};
      }
    }

    /** UpsertWorker: the view is replaced and every model it may concern is refreshed. */
    method UpsertWorker(worker: string, raw: set<string>, capacity: U32, running: U32)
      requires Valid()
      modifies this`views, this`byModel
      ensures Valid() && byModel.Keys >= old(byModel.Keys)
      ensures worker == "" ==> views == old(views) && byModel == old(byModel)
      ensures worker != "" ==>
        var view := View(worker, raw, KeySet(raw), if capacity == 0 then 1 else capacity, running);
        views == old(views)[worker := view] && view.cached <= byModel.Keys
    {
      hide Indexed, KeyOfString;
      if worker == "" {
        return;
      }
      var previous: set<ModelKey> := {};
      ghost var before := views;
      if worker in views {
        previous := views[worker].cached;
        RemoveWorker(worker);
        before := views - {worker};
      }
      var view := View(worker, raw, KeySet(raw), if capacity == 0 then 1 else capacity, running);
      views := views[worker := view];
      Refresh(worker, previous + view.cached + byModel.Keys, before);
    }

    /** UpdateLLMStats. */
    method UpdateStats(name: string, version: string, worker: string, st: Stats)
      requires Valid()
      modifies this`stats, this`byModel
      ensures Valid()
      ensures worker == "" || name == "" ==> stats == old(stats) && byModel == old(byModel)
      ensures worker != "" && name != "" ==>
        var key := ModelKeyFromParts(name, version);
        && StatsOf(stats, key, worker) == st
        && forall k, w :: (k, w) != (key, worker) ==> StatsOf(stats, k, w) == StatsOf(old(stats), k, w)
    {
      hide Indexed, SameStatsBut;
      if worker == "" || name == "" {
        return;
      }
      var key := ModelKeyFromParts(name, version);
      ghost var was := stats;
      StatsSet(stats, key, worker, st);
      stats := stats[key := (if key in stats then stats[key] else map[])[worker := st]];
      forall k | k in byModel && (k != key || worker !in views) ensures Indexed(byModel[k], views, stats, k) {
        StatsIrrelevant(byModel[k], views, was, stats, k);
      }
      if worker in views {
        assert views[worker := views[worker]] == views;
        UpsertModel(key, worker, views, was);
      }
    }

    lemma StatsSet(a: StatsMap, key: ModelKey, worker: string, st: Stats)
      ensures var b := a[key := (if key in a then a[key] else map[])[worker := st]];
              && StatsOf(b, key, worker) == st && SameStatsBut(a, b, key, worker)
              && forall k, w :: (k, w) != (key, worker) ==> StatsOf(b, k, w) == StatsOf(a, k, w)
    {}

    predicate Free(w: string)
      reads this
    {
      w in views && views[w].HasCapacity()
    }

    /** PreferredPredictedWorker: the best final prediction among the indexed workers. */
    method PreferredPredicted(key: ModelKey, delay: int, wait: int) returns (best: string)
      requires Valid()
      modifies this`byModel
      ensures Valid() && Best(IndexFinals(views, stats, key, delay, wait), best)
    {
      hide Indexed, Leads, Better, Final, IndexFinals, Best;
      var h := Ensure(key);
      var xs := h.predicted.entries;
      ghost var finals, done := IndexFinals(views, stats, key, delay, wait), {};
      best := "";
      var bestPrediction := 0;
      NamelessFinals(views, stats, key, delay, wait);
      LeadsStart(finals);
      assert xs[..0] == [];
      for i := 0 to |xs|
        invariant Leads(finals, done, best, bestPrediction) && done == Workers(xs[..i]) && Valid()
      {
        assert xs[..i + 1] == xs[..i] + [xs[i]];
        var w := xs[i].worker;
        EntryFinal(h, views, stats, key, delay, wait, i);
        if Free(w) {
          var predicted := Final(views[w], xs[i].rank, key in views[w].cached, delay, wait);
          LeadsMore(finals, done, best, bestPrediction, w);
          if Better(best, bestPrediction, w, predicted) {
            best, bestPrediction := w, predicted;
          }
        }
        done := done + {w};
      }
      assert xs[..|xs|] == xs;
      AllEntries(h, views, stats, key, delay, wait);
      LeadsAll(finals, done, best, bestPrediction);
    }

    lemma NamelessFinals(views: Views, stats: StatsMap, key: ModelKey, delay: int, wait: int)
      requires "" !in views
      ensures "" !in IndexFinals(views, stats, key, delay, wait)
    {}

    /** bestWorkerID: the first entry whose worker has capacity. */
    method BestCached(x: Index, key: ModelKey) returns (best: string)
      requires Valid() && Lists(x, CachedRanks(views, key))
      ensures CachedRanks(views, key) != map[] ==> Best(CachedRanks(views, key), best) && best != ""
      ensures CachedRanks(views, key) == map[] <==> best == ""
    {
      hide Indexed, Best, Lists, CachedRanks;
      for i := 0 to |x.entries|
        invariant forall k :: 0 <= k < i ==> !Free(x.entries[k].worker)
      {
        FirstHasCapacity(x, views, key);
        if Free(x.entries[i].worker) {
          return x.entries[i].worker;
        }
      }
      if x.entries != [] {
        FirstHasCapacity(x, views, key);
      }
      NoneCached(x, CachedRanks(views, key));
      return "";
    }

    /** hasCapacityLocked. */
    predicate AnyFree(x: Index)
      reads this
    {
      exists k :: 0 <= k < |x.entries| && Free(x.entries[k].worker)
    }

    /** The scan over cold workers. Its penalty applies only while a cached worker has
        capacity, when the scan is not reached. */
    method BestCold(x: Index, key: ModelKey, penalized: bool) returns (best: string)
      requires Valid() && Lists(x, ColdRanks(views, key)) && !penalized
      ensures Best(ColdRanks(views, key), best)
    {
      hide Indexed, Best, Leads, Lists, ColdRanks, Better;
      best := "";
      var bestScore := 0;
      ghost var ranks, done := ColdRanks(views, key), {};
      NamelessCold(views, key);
      LeadsStart(ranks);
      assert x.entries[..0] == [];
      for i := 0 to |x.entries|
        invariant Leads(ranks, done, best, bestScore) && done == Workers(x.entries[..i])
      {
        assert x.entries[..i + 1] == x.entries[..i] + [x.entries[i]];
        var w := x.entries[i].worker;
        ColdEntry(x, views, key, i);
        if Free(w) {
          var rank := x.entries[i].rank + (if penalized then 1000 else 0);
          LeadsMore(ranks, done, best, bestScore, w);
          if Better(best, bestScore, w, rank) {
            best, bestScore := w, rank;
          }
        }
        done := done + {w};
      }
      assert x.entries[..|x.entries|] == x.entries;
      AllRanked(x, ranks);
      LeadsAll(ranks, done, best, bestScore);
    }

    /** preferredLocalityFromPlacementLocked: the best cached worker with capacity whatever
        the delay, else the best cold one. */
    method PreferredLocality(key: ModelKey, delay: int, wait: int) returns (best: string)
      requires Valid()
      modifies this`byModel
      ensures Valid()
      ensures Best(if CachedRanks(views, key) != map[] then CachedRanks(views, key) else ColdRanks(views, key), best)
    {
      hide Indexed, Best, Lists, CachedRanks, ColdRanks;
      var h := Ensure(key);
      LocalityLists(h, views, stats, key);
      var hasCachedAvailable := AnyFree(h.cached);
      best := BestCached(h.cached, key);
      if best != "" {
        return;
      }
      best := BestCold(h.cold, key, hasCachedAvailable && delay < wait);
    }
  }

  lemma ColdEntry(x: Index, views: Views, key: ModelKey, i: nat)
    requires Lists(x, ColdRanks(views, key)) && i < |x.entries|
    ensures var e, ranks := x.entries[i], ColdRanks(views, key);
            e.worker in views && views[e.worker].HasCapacity() && e.worker in ranks && ranks[e.worker] == e.rank
            && e.worker !in Workers(x.entries[..i])
  {
    hide Lists, Workers;
    EntryRank(x, ColdRanks(views, key), i);
  }

  function Workers(xs: seq<Entry>): set<string> {
    set e | e in xs :: e.worker
  }

  /** A prediction as both scans compare it: load, and a discount for waiting cold work. */
  function Final(view: View, score: int, hit: bool, delay: int, wait: int): int {
    score + view.running * 50 - (if delay > wait && !hit then 25 else 0)
  }

  function IndexFinals(views: Views, stats: StatsMap, key: ModelKey, delay: int, wait: int): map<string, int> {
    map w | w in views && Predictable(views[w], StatsOf(stats, key, w), key)
      :: Final(views[w], Prediction(views[w], StatsOf(stats, key, w), key), key in views[w].cached, delay, wait)
  }

  lemma EntryRank(x: Index, ranks: map<string, int>, i: nat)
    requires Lists(x, ranks) && i < |x.entries|
    ensures x.entries[i].worker in ranks && ranks[x.entries[i].worker] == x.entries[i].rank
    ensures x.entries[i].worker !in Workers(x.entries[..i])
  {
    hide PlacementIndex.Ordered;
    assert Points(x, x.entries[i].worker);
    forall e | e in x.entries[..i] ensures e.worker != x.entries[i].worker {
      var k :| 0 <= k < i && x.entries[..i][k] == e;
      assert x.entries[k] == e;
    }
  }

  lemma AllRanked(x: Index, ranks: map<string, int>)
    requires Lists(x, ranks)
    ensures Workers(x.entries) == ranks.Keys
  {
    hide PlacementIndex.Ordered, DistinctWorkers;
    forall w | w in ranks ensures w in Workers(x.entries) {
      assert Points(x, w);
      assert x.entries[x.byID[w]] in x.entries;
    }
    forall w | w in Workers(x.entries) ensures w in ranks {
      var e :| e in x.entries && e.worker == w;
      var i :| 0 <= i < |x.entries| && x.entries[i] == e;
    }
  }

  lemma EntryFinal(h: Heaps, views: Views, stats: StatsMap, key: ModelKey, delay: int, wait: int, i: nat)
    requires Indexed(h, views, stats, key) && i < |h.predicted.entries|
    ensures var e, finals := h.predicted.entries[i], IndexFinals(views, stats, key, delay, wait);
            && e.worker in views && views[e.worker].HasCapacity() && e.worker in finals
            && finals[e.worker] == Final(views[e.worker], e.rank, key in views[e.worker].cached, delay, wait)
            && e.worker !in Workers(h.predicted.entries[..i])
  {
    hide Lists, Final, Prediction, StatsOf, Workers;
    EntryRank(h.predicted, PredictRanks(views, stats, key), i);
  }

  lemma AllEntries(h: Heaps, views: Views, stats: StatsMap, key: ModelKey, delay: int, wait: int)
    requires Indexed(h, views, stats, key)
    ensures Workers(h.predicted.entries) == IndexFinals(views, stats, key, delay, wait).Keys
  {
    hide Lists, Final, Prediction, Predictable, StatsOf, Workers;
    AllRanked(h.predicted, PredictRanks(views, stats, key));
  }

  lemma LocalityLists(h: Heaps, views: Views, stats: StatsMap, key: ModelKey)
    requires Indexed(h, views, stats, key)
    ensures Lists(h.cached, CachedRanks(views, key)) && Lists(h.cold, ColdRanks(views, key))
  {}

  lemma FirstHasCapacity(x: Index, views: Views, key: ModelKey)
    requires Lists(x, CachedRanks(views, key)) && x.entries != []
    ensures x.entries[0].worker in views && views[x.entries[0].worker].HasCapacity()
    ensures CachedRanks(views, key) != map[] && Best(CachedRanks(views, key), x.entries[0].worker)
  {
    hide Best, Workers;
    EntryRank(x, CachedRanks(views, key), 0);
    FirstIsBest(x, CachedRanks(views, key));
  }

  lemma NoneCached(x: Index, ranks: map<string, int>)
    requires Lists(x, ranks) && x.entries == []
    ensures ranks == map[]
  {
    assert ranks.Keys == {};
  }

  lemma NamelessCold(views: Views, key: ModelKey)
    requires "" !in views
    ensures "" !in ColdRanks(views, key)
  {}
}
