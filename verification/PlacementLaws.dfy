/** What the placement choices amount to, in terms of what is known about the workers: tasks
    running, free slots, cached models and measured latencies
    (internal/control/scheduler_placement.go:218-322, internal/control/llm.go:265-433). */
module PlacementLaws {
  import opened Basics
  import opened SchedulerState
  import opened PlacementIndex
  import opened PlacementScores
  import opened Placement
  import opened PlacementScan

  /** A worker takes at least one task. */
  predicate HasSlot(view: View) {
    view.running < view.capacity || (view.capacity == 0 && view.running == 0)
  }

  // ---- Prediction ------------------------------------------------------------------------------

  /** What a prediction looks at. */
  datatype Facts = Facts(running: nat, hit: bool, stats: Stats)

  datatype Parts = Parts(history: int, loading: int, evicting: int, queueing: int, discount: int)
  {
    function Total(): int { history + loading + evicting + queueing - discount }
  }

  /** Latency so far, or 25 without any; for a cold worker what loading the model took, or 100;
      25 for each of the last evictions; 50 for each running task; 25 off for a cold worker once
      the wait for a cached one is over. */
  predicate Priced(f: Facts, late: bool, p: Parts) {
    && (f.stats.requests >= 1 && f.stats.total >= 1 ==> p.history == f.stats.total)
    && (f.stats.requests == 0 || f.stats.total <= 0 ==> p.history == 25)
    && (f.hit ==> p.loading == 0 && p.discount == 0)
    && (!f.hit && f.stats.load + f.stats.fetch >= 1 ==> p.loading == f.stats.load + f.stats.fetch)
    && (!f.hit && f.stats.load + f.stats.fetch <= 0 ==> p.loading == 100)
    && (!f.hit ==> p.discount == if late then 25 else 0)
    && (f.stats.evictions >= 1 ==> p.evicting == 25 * f.stats.evictions)
    && (f.stats.evictions <= 0 ==> p.evicting == 0)
    && p.queueing == 50 * f.running
  }

  lemma PartsOf(f: Facts, late: bool) returns (p: Parts)
    ensures Priced(f, late, p) && forall q :: Priced(f, late, q) ==> q == p
    ensures p.history + p.loading + p.evicting == PredictedLatency(f.hit, f.stats)
  {
    var st := f.stats;
    p := Parts(if st.requests >= 1 && st.total >= 1 then st.total else 25,
               if f.hit then 0 else if st.load + st.fetch >= 1 then st.load + st.fetch else 100,
               if st.evictions >= 1 then 25 * st.evictions else 0,
               50 * f.running, if !f.hit && late then 25 else 0);
  }

  /** The cheapest worker, ties by worker ID; none only if there is none. */
  ghost predicate Cheapest(facts: map<string, Facts>, late: bool, best: string) {
    && (best == "" <==> facts == map[])
    && (best != "" ==> best in facts)
    && forall w, p, q ::
         w in facts && w != best && best in facts && Priced(facts[best], late, p) && Priced(facts[w], late, q) ==>
           p.Total() < q.Total() || (p.Total() == q.Total() && Before(best, w))
  }

  /** The estimate without the running tasks is below the index's sentinel. */
  ghost predicate Foreseeable(f: Facts) {
    exists p :: Priced(f, false, p) && p.history + p.loading + p.evicting < 0x2000_0000_0000_0000
  }

  ghost predicate CostIs(f: Facts, late: bool, n: int) {
    forall p :: Priced(f, late, p) ==> p.Total() == n
  }

  lemma FinalCost(view: View, f: Facts, delay: int, wait: int)
    requires view.running == f.running
    ensures CostIs(f, delay > wait, Final(view, PredictedLatency(f.hit, f.stats), f.hit, delay, wait))
  {
    hide PredictedLatency;
    var p := PartsOf(f, delay > wait);
  }

  lemma BestIsCheapest(facts: map<string, Facts>, ranks: map<string, int>, late: bool, best: string)
    requires Best(ranks, best) && ranks.Keys == facts.Keys && "" !in ranks
    requires forall w :: w in facts ==> CostIs(facts[w], late, ranks[w])
    ensures Cheapest(facts, late, best)
  {
    hide Priced;
    assert facts == map[] <==> facts.Keys == {};
    assert ranks == map[] <==> ranks.Keys == {};
  }

  /** What the indexed choice compares: workers with a slot and a foreseeable latency. */
  ghost function KeyFacts(views: Views, stats: StatsMap, key: ModelKey): map<string, Facts> {
    map w | w in views && HasSlot(views[w]) && Foreseeable(FactsAt(views[w], key in views[w].cached, stats, key, w))
      :: FactsAt(views[w], key in views[w].cached, stats, key, w)
  }

  /** And the plain one: all workers with a slot, cached as their reports spell it. */
  function NameFacts(views: Views, stats: StatsMap, name: string, version: string): map<string, Facts> {
    map w | w in views && HasSlot(views[w])
      :: FactsAt(views[w], Holds(views[w], name, version), stats, ModelKeyFromParts(name, version), w)
  }

  function FactsAt(view: View, hit: bool, stats: StatsMap, key: ModelKey, w: string): Facts {
    Facts(view.running, hit, StatsOf(stats, key, w))
  }

  lemma Foreseen(view: View, stats: StatsMap, key: ModelKey, w: string)
    ensures Predictable(view, StatsOf(stats, key, w), key)
            <==> HasSlot(view) && Foreseeable(FactsAt(view, key in view.cached, stats, key, w))
  {
    hide PredictedLatency, StatsOf, Priced;
    var p := PartsOf(FactsAt(view, key in view.cached, stats, key, w), false);
  }

  /** PreferredPredictedWorker chooses the cheapest of the workers it foresees. */
  lemma IndexIsCheapest(views: Views, stats: StatsMap, key: ModelKey, delay: int, wait: int, best: string)
    requires "" !in views && Best(IndexFinals(views, stats, key, delay, wait), best)
    ensures Cheapest(KeyFacts(views, stats, key), delay > wait, best)
  {
    hide Best, Predictable, StatsOf, Priced, PredictedLatency, Final, Foreseeable, HasSlot, CostIs, Cheapest;
    var facts, ranks := KeyFacts(views, stats, key), IndexFinals(views, stats, key, delay, wait);
    forall w | w in views
      ensures w in facts <==> w in ranks
      ensures w in facts ==> CostIs(facts[w], delay > wait, ranks[w])
    {
      Foreseen(views[w], stats, key, w);
      FinalCost(views[w], FactsAt(views[w], key in views[w].cached, stats, key, w), delay, wait);
      if w in ranks {
        Capable(views[w], StatsOf(stats, key, w), key);
      }
    }
    assert facts.Keys == ranks.Keys;
    BestIsCheapest(facts, ranks, delay > wait, best);
  }

  lemma Capable(view: View, stats: Stats, key: ModelKey)
    requires Predictable(view, stats, key)
    ensures Prediction(view, stats, key) == PredictedLatency(key in view.cached, stats)
  {}

  /** The plain scan chooses the cheapest worker with a slot. */
  lemma PlainIsCheapest(
    views: Views, stats: StatsMap, name: string, version: string, delay: int, wait: int, best: string)
    requires "" !in views && Best(PlainFinals(views, stats, name, version, delay, wait), best)
    ensures Cheapest(NameFacts(views, stats, name, version), delay > wait, best)
  {
    hide Best, StatsOf, Priced, PredictedLatency, Final, CostIs, Cheapest, ModelKeyString, ModelKeyFromParts;
    var facts, ranks := NameFacts(views, stats, name, version), PlainFinals(views, stats, name, version, delay, wait);
    forall w | w in facts ensures CostIs(facts[w], delay > wait, ranks[w]) {
      FinalCost(views[w], facts[w], delay, wait);
    }
    assert facts.Keys == ranks.Keys;
    BestIsCheapest(facts, ranks, delay > wait, best);
  }

  lemma Cheaper(facts: map<string, Facts>, late: bool, best: string, w: string) returns (p: Parts, q: Parts)
    requires Cheapest(facts, late, best) && w in facts
    ensures best in facts && Priced(facts[best], late, p) && Priced(facts[w], late, q)
    ensures w != best ==> p.Total() < q.Total() || (p.Total() == q.Total() && Before(best, w))
  {
    hide Priced;
    p := PartsOf(facts[best], late);
    q := PartsOf(facts[w], late);
  }

  // ---- Laws of the prediction ------------------------------------------------------------------

  /** What one more running task is worth: 50 of latency. */
  lemma FiftyPerTask(facts: map<string, Facts>, late: bool, best: string, w: string)
    requires Cheapest(facts, late, best) && w in facts && facts[w].hit == facts[best].hit
    requires facts[w].stats == facts[best].stats.(total := facts[w].stats.total)
    requires facts[best].stats.requests > 0 && facts[best].stats.total > 0 && facts[w].stats.total > 0
    ensures facts[best].stats.total + 50 * facts[best].running <= facts[w].stats.total + 50 * facts[w].running
  {
    var p, q := Cheaper(facts, late, best, w);
  }

  /** Among workers that are otherwise alike the least busy one is chosen, ties by worker ID. */
  lemma LeastBusy(facts: map<string, Facts>, late: bool, best: string, w: string)
    requires Cheapest(facts, late, best) && w in facts && w != best
    requires facts[w].hit == facts[best].hit && facts[w].stats == facts[best].stats
    ensures facts[best].running < facts[w].running || (facts[best].running == facts[w].running && Before(best, w))
  {
    var p, q := Cheaper(facts, late, best, w);
  }

  /** A cold worker is chosen over a cached one that is as fast and no busier only when the wait
      is over and loading the model took it no more than 25. */
  lemma ColdOverCached(facts: map<string, Facts>, late: bool, best: string, w: string)
    requires Cheapest(facts, late, best) && w in facts && !facts[best].hit && facts[w].hit
    requires facts[w].stats == facts[best].stats && facts[w].running <= facts[best].running
    ensures late && facts[w].running == facts[best].running
            && 1 <= facts[best].stats.load + facts[best].stats.fetch <= 25
  {
    var p, q := Cheaper(facts, late, best, w);
  }

  /** Each of the last evictions counts like half a running task. */
  lemma EvictionsCount(facts: map<string, Facts>, late: bool, best: string, w: string)
    requires Cheapest(facts, late, best) && w in facts && facts[w].hit == facts[best].hit
    requires facts[w].stats == facts[best].stats.(evictions := facts[w].stats.evictions)
    requires facts[best].stats.evictions >= 0 && facts[w].stats.evictions >= 0
    ensures facts[best].stats.evictions + 2 * facts[best].running <= facts[w].stats.evictions + 2 * facts[w].running
  {
    var p, q := Cheaper(facts, late, best, w);
  }

  // ---- Locality --------------------------------------------------------------------------------

  /** 100 for each free slot, 10 off for each running task. */
  predicate Roomier(a: View, b: View, bonus: int) {
    100 * (a.capacity - a.running) - 10 * a.running + bonus > 100 * (b.capacity - b.running) - 10 * b.running
  }

  predicate AsRoomy(a: View, b: View, bonus: int) {
    100 * (a.capacity - a.running) - 10 * a.running + bonus == 100 * (b.capacity - b.running) - 10 * b.running
  }

  /** A cached worker is worth 1000 more, and a cold one 1000 less while waiting for a cached. */
  function Bonus(hit: bool, waiting: bool): int {
    if hit then 1000 else if waiting then -1000 else 0
  }

  /** preferredLocalityFromPlacementLocked: cached workers come first whatever the delay, and
      among workers of one kind the roomiest, ties by worker ID. */
  lemma IndexIsLocal(views: Views, key: ModelKey, best: string)
    requires "" !in views && Best(IndexLocality(views, key), best)
    ensures best == "" <==> forall w :: w in views ==> !HasSlot(views[w])
    ensures best != "" ==> best in views && HasSlot(views[best])
    ensures best != "" ==> forall w :: w in views && w != best && HasSlot(views[w]) ==>
              && (key in views[w].cached ==> key in views[best].cached)
              && ((key in views[best].cached && key !in views[w].cached)
                  || Roomier(views[best], views[w], 0)
                  || (AsRoomy(views[best], views[w], 0) && Before(best, w)))
  {
    var cached, cold := CachedRanks(views, key), ColdRanks(views, key);
    forall w | w in views && HasSlot(views[w]) ensures w in cached || w in cold {}
    if cached != map[] {
      var c :| c in cached;
    } else {
      assert cached.Keys == {};
      assert cold == map[] <==> cold.Keys == {};
    }
  }

  /** Some worker with a slot holds the model. */
  predicate SomeHolds(views: Views, name: string, version: string) {
    exists c :: c in views && HasSlot(views[c]) && Holds(views[c], name, version)
  }

  /** preferredLLMWorker's own scan: the roomiest worker after bonuses. */
  lemma PlainIsLocal(views: Views, name: string, version: string, waiting: bool, best: string)
    requires "" !in views && Best(PlainLocality(views, name, version, waiting), best)
    ensures best == "" <==> forall w :: w in views ==> !HasSlot(views[w])
    ensures best != "" ==> best in views && HasSlot(views[best])
    ensures best != "" ==> forall w :: w in views && w != best && HasSlot(views[w]) ==>
              var charged := SomeHolds(views, name, version) && waiting;
              var bonus := Bonus(Holds(views[best], name, version), charged)
                           - Bonus(Holds(views[w], name, version), charged);
              Roomier(views[best], views[w], bonus) || (AsRoomy(views[best], views[w], bonus) && Before(best, w))
  {
    hide Holds, PlainRank, AnyCached, SomeHolds, Roomier, AsRoomy, Bonus;
    var ranks := PlainLocality(views, name, version, waiting);
    SameHolds(views, name, version);
    forall w | w in views ensures w in ranks <==> HasSlot(views[w]) {}
    assert ranks == map[] <==> ranks.Keys == {};
    if best != "" {
      forall w | w in views && w != best && HasSlot(views[w])
        ensures var charged := SomeHolds(views, name, version) && waiting;
                var bonus := Bonus(Holds(views[best], name, version), charged)
                             - Bonus(Holds(views[w], name, version), charged);
                Roomier(views[best], views[w], bonus) || (AsRoomy(views[best], views[w], bonus) && Before(best, w))
      {
        RankedBonus(views[best], views[w], name, version, SomeHolds(views, name, version) && waiting);
      }
    }
  }

  lemma RankedBonus(a: View, b: View, name: string, version: string, charged: bool)
    requires HasSlot(a) && HasSlot(b)
    ensures var bonus := Bonus(Holds(a, name, version), charged) - Bonus(Holds(b, name, version), charged);
            && (PlainRank(a, name, version, charged) < PlainRank(b, name, version, charged) <==> Roomier(a, b, bonus))
            && (PlainRank(a, name, version, charged) == PlainRank(b, name, version, charged) <==> AsRoomy(a, b, bonus))
  {
    hide Holds;
  }

  lemma SameHolds(views: Views, name: string, version: string)
    ensures AnyCached(views, name, version) == SomeHolds(views, name, version)
  {
    hide Holds;
  }
}
