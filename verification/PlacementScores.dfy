/** Worker views, their scores and the indexes that rank them
    (internal/control/scheduler_placement.go:53-142,189-272, internal/control/llm.go:351-433,
    internal/control/scheduler.go:606-640). */
module PlacementScores {
  import opened Basics
  import opened SchedulerState
  import opened PlacementIndex

  type U32 = x: nat | x < 0x1_0000_0000

  // ---- Model keys ---------------------------------------------------------------------------

  /** metadata.ModelKey. */
  function ModelKeyString(name: string, version: string): string {
    name + ":" + (if version == "" then "v1" else version)
  }

  /** splitModelKey: cut at the first colon; without one the version is v1. */
  function Split(text: string): (string, string) {
    if text == "" then ("", "v1")
    else if text[0] == ':' then ("", text[1..])
    else
      var rest := Split(text[1..]);
      ([text[0]] + rest.0, rest.1)
  }

  function KeyOfString(text: string): ModelKey {
    ModelKeyFromParts(Split(text).0, Split(text).1)
  }

  lemma {:induction false} SplitConcat(name: string, version: string)
    requires ':' !in name
    ensures Split(name + ":" + version) == (name, version)
  {
    if name == "" {
      assert name + ":" + version == [':'] + version;
    } else {
      assert name == [name[0]] + name[1..];
      assert name + ":" + version == [name[0]] + (name[1..] + ":" + version);
      SplitConcat(name[1..], version);
    }
  }

  lemma {:induction false} SplitNames(text: string)
    ensures ':' !in Split(text).0
  {
    if text != "" && text[0] != ':' {
      SplitNames(text[1..]);
    }
  }

  /** The key of a model survives the string form exactly when its name has no colon. */
  lemma KeyRoundTrip(name: string, version: string)
    ensures KeyOfString(ModelKeyString(name, version)) == ModelKeyFromParts(name, version) <==> ':' !in name
  {
    var v := if version == "" then "v1" else version;
    if ':' !in name {
      SplitConcat(name, v);
    } else {
      SplitNames(ModelKeyString(name, version));
    }
  }

  /** modelKeySet. */
  function KeySet(raw: set<string>): set<ModelKey> {
    set text | text in raw :: KeyOfString(text)
  }

  // ---- Views and scores -------------------------------------------------------------------------

  datatype View = View(worker: string, raw: set<string>, cached: set<ModelKey>, capacity: U32, running: U32)
  {
    predicate HasCapacity() {
      running < (if capacity == 0 then 1 else capacity)
    }
  }

  datatype Stats = Stats(requests: nat, total: int, load: int, fetch: int, evictions: int)

  const NO_STATS: Stats := Stats(0, 0, 0, 0, 0)

  const NO_LOCALITY: int := 0x1000_0000_0000_0000
  const LOCALITY_LIMIT: int := 0x0800_0000_0000_0000
  const NO_PREDICTION: int := 0x4000_0000_0000_0000
  const PREDICT_LIMIT: int := 0x2000_0000_0000_0000

  function LocalityScore(view: View, hit: bool): int {
    if !view.HasCapacity() then -NO_LOCALITY
    else (view.capacity - view.running) * 100 - view.running * 10 + (if hit then 1000 else 0)
  }

  function PredictedLatency(hit: bool, stats: Stats): int {
    var base := if stats.requests > 0 && stats.total > 0 then stats.total else 25;
    var cold := if hit then 0 else if stats.load + stats.fetch <= 0 then 100 else stats.load + stats.fetch;
    base + cold + (if stats.evictions > 0 then 25 * stats.evictions else 0)
  }

  function PredictScore(view: View, stats: Stats, hit: bool): int {
    if !view.HasCapacity() then NO_PREDICTION else PredictedLatency(hit, stats)
  }

  type StatsMap = map<ModelKey, map<string, Stats>>

  function StatsOf(stats: StatsMap, key: ModelKey, worker: string): Stats {
    if key in stats && worker in stats[key] then stats[key][worker] else NO_STATS
  }

  // ---- What the indexes must say -----------------------------------------------------------------

  type Views = map<string, View>

  /** Workers with capacity that hold the model, best locality first. */
  function CachedRanks(views: Views, key: ModelKey): map<string, int> {
    map w | w in views && views[w].HasCapacity() && key in views[w].cached :: -LocalityScore(views[w], true)
  }

  function ColdRanks(views: Views, key: ModelKey): map<string, int> {
    map w | w in views && views[w].HasCapacity() && key !in views[w].cached :: -LocalityScore(views[w], false)
  }

  /** Workers with capacity and a prediction below the sentinel. */
  function PredictRanks(views: Views, stats: StatsMap, key: ModelKey): map<string, int> {
    map w | w in views && Predictable(views[w], StatsOf(stats, key, w), key) ::
      Prediction(views[w], StatsOf(stats, key, w), key)
  }

  function Prediction(view: View, stats: Stats, key: ModelKey): int {
    PredictScore(view, stats, key in view.cached)
  }

  predicate Predictable(view: View, stats: Stats, key: ModelKey) {
    view.HasCapacity() && Prediction(view, stats, key) < PREDICT_LIMIT
  }

  datatype Heaps = Heaps(cached: Index, cold: Index, predicted: Index)

  const NO_HEAPS: Heaps := Heaps(NO_INDEX, NO_INDEX, NO_INDEX)

  /** upsertWorkerModelPlacementInnerLocked for an active worker. */
  function HeapsUpserted(h: Heaps, view: View, worker: string, hit: bool, stats: Stats): Heaps {
    var rank := -LocalityScore(view, hit);
    Heaps(if hit then Upserted(h.cached, worker, rank, LOCALITY_LIMIT) else Removed(h.cached, worker),
          if hit then Removed(h.cold, worker) else Upserted(h.cold, worker, rank, LOCALITY_LIMIT),
          Upserted(h.predicted, worker, PredictScore(view, stats, hit), PREDICT_LIMIT))
  }

  function HeapsRemoved(h: Heaps, worker: string): Heaps {
    Heaps(Removed(h.cached, worker), Removed(h.cold, worker), Removed(h.predicted, worker))
  }

  /** The indexes of a model are recomputed from the current views and statistics. */
  predicate Indexed(h: Heaps, views: Views, stats: StatsMap, key: ModelKey) {
    && Lists(h.cached, CachedRanks(views, key))
    && Lists(h.cold, ColdRanks(views, key))
    && Lists(h.predicted, PredictRanks(views, stats, key))
  }

  lemma CapacityBounds(view: View, hit: bool)
    requires view.capacity > 0
    ensures view.HasCapacity() <==> -LocalityScore(view, hit) < LOCALITY_LIMIT
    ensures !view.HasCapacity() ==> PredictScore(view, NO_STATS, hit) >= PREDICT_LIMIT
  {}

  ghost predicate SameStatsBut(a: StatsMap, b: StatsMap, key: ModelKey, worker: string) {
    forall w :: w != worker ==> StatsOf(a, key, w) == StatsOf(b, key, w)
  }

  lemma CachedUpdate(views: Views, key: ModelKey, worker: string, view: View)
    ensures CachedRanks(views[worker := view], key)
            == if view.HasCapacity() && key in view.cached
              then CachedRanks(views, key)[worker := -LocalityScore(view, true)]
               else CachedRanks(views, key) - {worker}
  {}

  lemma ColdUpdate(views: Views, key: ModelKey, worker: string, view: View)
    ensures ColdRanks(views[worker := view], key)
            == if view.HasCapacity() && key !in view.cached
              then ColdRanks(views, key)[worker := -LocalityScore(view, false)]
               else ColdRanks(views, key) - {worker}
  {}

  lemma PredictUpdate(views: Views, a: StatsMap, b: StatsMap, key: ModelKey, worker: string, view: View)
    requires SameStatsBut(a, b, key, worker)
    ensures var stats := StatsOf(b, key, worker);
            PredictRanks(views[worker := view], b, key)
            == if Predictable(view, stats, key) then PredictRanks(views, a, key)[worker := Prediction(view, stats, key)]
               else PredictRanks(views, a, key) - {worker}
  {
    hide Predictable, Prediction, StatsOf;
    var more := PredictRanks(views[worker := view], b, key);
    var ranks := PredictRanks(views, a, key);
    forall w | w != worker ensures w in more <==> w in ranks {
      assert StatsOf(a, key, w) == StatsOf(b, key, w);
    }
    forall w | w != worker && w in more ensures more[w] == ranks[w] {
      assert StatsOf(a, key, w) == StatsOf(b, key, w);
    }
  }

  /** Upserting one worker brings an index up to date with its new view and statistics. */
  lemma UpsertIndexed(h: Heaps, views: Views, a: StatsMap, b: StatsMap, key: ModelKey, worker: string, view: View)
    requires Indexed(h, views, a, key) && SameStatsBut(a, b, key, worker) && view.capacity > 0
    ensures Indexed(HeapsUpserted(h, view, worker, key in view.cached, StatsOf(b, key, worker)),
                    views[worker := view], b, key)
  {
    hide Lists, Upserted, Removed, CachedRanks, ColdRanks, PredictRanks, LocalityScore, PredictScore, SameStatsBut,
      StatsOf;
    var hit := key in view.cached;
    CapacityBounds(view, hit);
    CachedUpdate(views, key, worker, view);
    ColdUpdate(views, key, worker, view);
    PredictUpdate(views, a, b, key, worker, view);
    NoPrediction(view, StatsOf(b, key, worker), hit);
    UpsertLists(h.cached, CachedRanks(views, key), worker, -LocalityScore(view, hit), LOCALITY_LIMIT);
    RemoveLists(h.cached, CachedRanks(views, key), worker);
    UpsertLists(h.cold, ColdRanks(views, key), worker, -LocalityScore(view, hit), LOCALITY_LIMIT);
    RemoveLists(h.cold, ColdRanks(views, key), worker);
    UpsertLists(h.predicted, PredictRanks(views, a, key), worker, PredictScore(view, StatsOf(b, key, worker), hit),
                PREDICT_LIMIT);
  }

  lemma NoPrediction(view: View, stats: Stats, hit: bool)
    ensures !view.HasCapacity() ==> PredictScore(view, stats, hit) >= PREDICT_LIMIT
  {}

  lemma RanksWithout(views: Views, stats: StatsMap, key: ModelKey, worker: string)
    ensures CachedRanks(views - {worker}, key) == CachedRanks(views, key) - {worker}
    ensures ColdRanks(views - {worker}, key) == ColdRanks(views, key) - {worker}
  {
    hide LocalityScore;
  }

  lemma PredictWithout(views: Views, stats: StatsMap, key: ModelKey, worker: string)
    ensures PredictRanks(views - {worker}, stats, key) == PredictRanks(views, stats, key) - {worker}
  {
    hide Predictable, Prediction, StatsOf;
  }

  lemma RemoveIndexed(h: Heaps, views: Views, stats: StatsMap, key: ModelKey, worker: string)
    requires Indexed(h, views, stats, key)
    ensures Indexed(HeapsRemoved(h, worker), views - {worker}, stats, key)
  {
    hide Lists, Removed, CachedRanks, ColdRanks, PredictRanks;
    RemoveLists(h.cached, CachedRanks(views, key), worker);
    RemoveLists(h.cold, ColdRanks(views, key), worker);
    RemoveLists(h.predicted, PredictRanks(views, stats, key), worker);
    RanksWithout(views, stats, key, worker);
    PredictWithout(views, stats, key, worker);
  }

  lemma EmptyIndexed(stats: StatsMap, key: ModelKey)
    ensures Indexed(NO_HEAPS, map[], stats, key)
  {
    assert CachedRanks(map[], key) == map[] && ColdRanks(map[], key) == map[]
      && PredictRanks(map[], stats, key) == map[];
  }

  /** Statistics of workers without a view, or of other models, do not matter. */
  lemma StatsIrrelevant(h: Heaps, views: Views, a: StatsMap, b: StatsMap, key: ModelKey)
    requires Indexed(h, views, a, key) && forall w :: w in views ==> StatsOf(a, key, w) == StatsOf(b, key, w)
    ensures Indexed(h, views, b, key)
  {
    hide Lists, Predictable, Prediction, LocalityScore, StatsOf;
    assert PredictRanks(views, b, key) == PredictRanks(views, a, key);
  }

  /** Every worker with capacity is in exactly one of cached and cold. */
  lemma CachedColdPartition(views: Views, key: ModelKey)
    ensures CachedRanks(views, key).Keys !! ColdRanks(views, key).Keys
    ensures CachedRanks(views, key).Keys + ColdRanks(views, key).Keys == set w | w in views && views[w].HasCapacity()
  {}

  // ---- The best worker --------------------------------------------------------------------------

  /** The lowest rank, ties by worker ID; "" when there is no candidate. */
  predicate Best(ranks: map<string, int>, r: string) {
    if ranks == map[] then r == ""
    else
      r in ranks
      && forall w :: w in ranks && w != r ==> ranks[r] < ranks[w] || (ranks[r] == ranks[w] && Before(r, w))
  }

  lemma BestUnique(ranks: map<string, int>, r: string, q: string)
    requires Best(ranks, r) && Best(ranks, q)
    ensures r == q
  {
    if ranks != map[] && r != q {
      BeforeTotal(r, q);
      if Before(r, q) { BeforeAsymmetric(r, q); } else { BeforeAsymmetric(q, r); }
    }
  }

  /** The comparison of both scans. */
  predicate Better(best: string, bestRank: int, w: string, rank: int) {
    best == "" || rank < bestRank || (rank == bestRank && Before(w, best))
  }

  lemma BestStep(ranks: map<string, int>, best: string, w: string, rank: int)
    requires Best(ranks, best) && w !in ranks && w != "" && "" !in ranks
    ensures Best(ranks[w := rank],
                 if Better(best, if best in ranks then ranks[best] else 0, w, rank) then w else best)
  {
    hide Before;
    if ranks != map[] {
      BeforeTotal(w, best);
      forall v | v in ranks && v != best ensures Before(w, best) && Before(best, v) ==> Before(w, v) {
        if Before(w, best) && Before(best, v) { BeforeTransitive(w, best, v); }
      }
    }
  }

  function Only(ranks: map<string, int>, workers: set<string>): map<string, int> {
    map w | w in ranks && w in workers :: ranks[w]
  }

  /** A scan so far: the best of the workers looked at, with its rank. */
  predicate Leads(ranks: map<string, int>, done: set<string>, best: string, bestRank: int) {
    && "" !in ranks && Best(Only(ranks, done), best)
    && (best != "" ==> best in ranks && ranks[best] == bestRank)
  }

  lemma LeadsStart(ranks: map<string, int>)
    requires "" !in ranks
    ensures Leads(ranks, {}, "", 0)
  {}

  lemma LeadsMore(ranks: map<string, int>, done: set<string>, best: string, bestRank: int, w: string)
    requires Leads(ranks, done, best, bestRank) && w in ranks && w !in done
    ensures if Better(best, bestRank, w, ranks[w]) then Leads(ranks, done + {w}, w, ranks[w])
            else Leads(ranks, done + {w}, best, bestRank)
  {
    hide Before;
    var seen := Only(ranks, done);
    assert Only(ranks, done + {w}) == seen[w := ranks[w]];
    BestStep(seen, best, w, ranks[w]);
  }

  lemma LeadsSkip(ranks: map<string, int>, done: set<string>, best: string, bestRank: int, w: string)
    requires Leads(ranks, done, best, bestRank) && w !in ranks
    ensures Leads(ranks, done + {w}, best, bestRank)
  {
    assert Only(ranks, done + {w}) == Only(ranks, done);
  }

  lemma LeadsAll(ranks: map<string, int>, done: set<string>, best: string, bestRank: int)
    requires Leads(ranks, done, best, bestRank) && ranks.Keys <= done
    ensures Best(ranks, best)
  {
    assert Only(ranks, done) == ranks;
  }

  /** The first entry of an index is its best worker. */
  lemma FirstIsBest(x: Index, ranks: map<string, int>)
    requires Lists(x, ranks)
    ensures Best(ranks, if x.entries == [] then "" else x.entries[0].worker)
  {
    hide Before;
    if x.entries == [] {
      assert ranks.Keys == {};
    } else {
      var r := x.entries[0].worker;
      forall w | w in ranks && w != r ensures ranks[r] < ranks[w] || (ranks[r] == ranks[w] && Before(r, w)) {
        assert Points(x, w) && Points(x, r);
        assert Ahead(x.entries[0], x.entries[x.byID[w]]);
      }
    }
  }
}
