/** The unindexed scans over workers, and when the indexes choose as they do
    (internal/control/llm.go:265-398, internal/metadata/memory.go:622-627). */
module PlacementScan {
  import opened Basics
  import opened SchedulerState
  import opened PlacementIndex
  import opened PlacementScores
  import opened Placement

  /** What the plain prediction scan compares; it looks models up by their string form. */
  function PlainFinals(views: Views, stats: StatsMap, name: string, version: string, delay: int,
                       wait: int): map<string, int> {
    map w | w in views && views[w].HasCapacity() :: PlainFinal(views[w], w, stats, name, version, delay, wait)
  }

  function PlainFinal(view: View, w: string, stats: StatsMap, name: string, version: string, delay: int,
                      wait: int): int {
    var hit := ModelKeyString(name, version) in view.raw;
    Final(view, PredictedLatency(hit, StatsOf(stats, ModelKeyFromParts(name, version), w)), hit, delay, wait)
  }

  /** predictedLLMWorker without a scheduler, over workers in any order. */
  method PlainPredicted(views: Views, order: seq<string>, stats: StatsMap, name: string, version: string, delay: int,
                        wait: int)
    returns (best: string)
    requires "" !in views && (forall w :: w in order <==> w in views)
    requires forall i, j :: 0 <= i < j < |order| ==> order[i] != order[j]
    ensures Best(PlainFinals(views, stats, name, version, delay, wait), best)
  {
    hide Best, Leads, Better, PlainFinal;
    best := "";
    var bestPrediction := 0;
    ghost var finals, done := PlainFinals(views, stats, name, version, delay, wait), {};
    LeadsStart(finals);
    for i := 0 to |order|
      invariant Leads(finals, done, best, bestPrediction) && done == set k | 0 <= k < i :: order[k]
    {
      var w := order[i];
      assert w in order;
      if views[w].HasCapacity() {
        var predicted := PlainFinal(views[w], w, stats, name, version, delay, wait);
        LeadsMore(finals, done, best, bestPrediction, w);
        if Better(best, bestPrediction, w, predicted) {
          best, bestPrediction := w, predicted;
        }
      } else {
        LeadsSkip(finals, done, best, bestPrediction, w);
      }
      done := done + {w};
    }
    LeadsAll(finals, done, best, bestPrediction);
  }

  /** Cache entries as workers report them: every key has a non-empty version. */
  ghost predicate Reported(raw: set<string>) {
    forall text :: text in raw ==> exists name, version :: text == ModelKeyString(name, version)
  }

  lemma {:induction false} SplitRejoins(text: string)
    requires ':' in text
    ensures text == Split(text).0 + ":" + Split(text).1
  {
    if text[0] != ':' {
      assert text == [text[0]] + text[1..];
      SplitRejoins(text[1..]);
    }
  }

  lemma ReportedVersion(name: string, version: string)
    ensures ':' in ModelKeyString(name, version) && Split(ModelKeyString(name, version)).1 != ""
  {
    var v := if version == "" then "v1" else version;
    var text := ModelKeyString(name, version);
    assert text[|name|] == ':' && |text| == |name| + 1 + |v|;
    SplitRejoins(text);
    FirstColon(text, |name|);
  }

  lemma {:induction false} FirstColon(text: string, i: nat)
    requires i < |text| && text[i] == ':'
    ensures |Split(text).0| <= i
  {
    if text[0] != ':' {
      FirstColon(text[1..], i - 1);
    }
  }

  lemma PlainNamesAgree(raw: set<string>, name: string, version: string)
    requires Reported(raw) && ':' !in name
    ensures ModelKeyString(name, version) in raw <==> ModelKeyFromParts(name, version) in KeySet(raw)
  {
    KeyRoundTrip(name, version);
    if ModelKeyFromParts(name, version) in KeySet(raw) {
      var text :| text in raw && KeyOfString(text) == ModelKeyFromParts(name, version);
      var n, v :| text == ModelKeyString(n, v);
      ReportedVersion(n, v);
      SplitRejoins(text);
    }
  }

  /** No key of a reported cache has a colon in its name. */
  lemma ColonNeverKeyed(raw: set<string>, name: string, version: string)
    requires ':' in name
    ensures ModelKeyFromParts(name, version) !in KeySet(raw)
  {
    forall text | text in raw ensures KeyOfString(text).name != name {
      SplitNames(text);
    }
  }

  /** A worker holds the model by its string but not by its key. */
  predicate Hidden(view: View, name: string, version: string) {
    ':' in name && ModelKeyString(name, version) in view.raw
  }

  /** Over every reported cache the string lookup and the key lookup agree exactly when the
      name has no colon or the cache does not hold the model. */
  lemma LookupsAgree(raw: set<string>, name: string, version: string)
    requires Reported(raw)
    ensures (ModelKeyString(name, version) in raw <==> ModelKeyFromParts(name, version) in KeySet(raw))
            <==> ':' !in name || ModelKeyString(name, version) !in raw
  {
    if ':' in name {
      ColonNeverKeyed(raw, name, version);
    } else {
      PlainNamesAgree(raw, name, version);
    }
  }

  // ---- Two rankings with one winner --------------------------------------------------------------

  /** The index lacks this worker or ranks it differently. */
  predicate Shifted(index: map<string, int>, plain: map<string, int>, w: string) {
    w in plain && (w !in index || index[w] != plain[w])
  }

  predicate AheadIn(ranks: map<string, int>, w: string, c: string) {
    w in ranks && c in ranks && Ahead(Entry(w, ranks[w]), Entry(c, ranks[c]))
  }

  /** Wherever the rankings are not the same about one of the two, `w` is ahead in both. */
  predicate Outranks(index: map<string, int>, plain: map<string, int>, w: string) {
    w in index && w in plain
    && forall c :: c in plain && c != w && (Shifted(index, plain, c) || Shifted(index, plain, w)) ==>
         AheadIn(plain, w, c) && (c in index ==> AheadIn(index, w, c))
  }

  lemma AheadOfAll(ranks: map<string, int>, r: string, c: string)
    requires Best(ranks, r) && r in ranks && c in ranks && c != r
    ensures AheadIn(ranks, r, c) && !AheadIn(ranks, c, r)
  {
    if Before(r, c) {
      BeforeAsymmetric(r, c);
    }
  }

  /** The winner of a ranking stays the winner where it outranks what is shifted. */
  lemma SameWinner(index: map<string, int>, plain: map<string, int>, r: string, q: string, w: string)
    requires Best(index, r) && Best(plain, q) && index.Keys <= plain.Keys && Outranks(index, plain, w)
    ensures r == q
  {
    hide Best, AheadIn, Outranks, Shifted;
    OutranksIn(index, plain, w);
    WinnerKnown(index, r, w);
    WinnerKnown(plain, q, w);
    if r != q {
      WinnerUnshifted(index, plain, r, w, index);
      WinnerUnshifted(index, plain, q, w, plain);
      CrossWinners(index, plain, r, q);
    }
  }

  lemma WinnerKnown(ranks: map<string, int>, r: string, w: string)
    requires Best(ranks, r) && w in ranks
    ensures r in ranks
  {}

  lemma OutranksIn(index: map<string, int>, plain: map<string, int>, w: string)
    requires Outranks(index, plain, w)
    ensures w in index && w in plain
  {}

  /** The winner of either ranking is `w` or not shifted, and if `w` is shifted it is `w`. */
  lemma WinnerUnshifted(index: map<string, int>, plain: map<string, int>, r: string, w: string, ranks: map<string, int>)
    requires Outranks(index, plain, w) && index.Keys <= plain.Keys && (ranks == index || ranks == plain)
    requires Best(ranks, r) && r in ranks
    ensures r == w || (!Shifted(index, plain, r) && !Shifted(index, plain, w))
  {
    hide Best, AheadIn;
    if r != w {
      AheadOfAll(ranks, r, w);
    }
  }

  lemma CrossWinners(index: map<string, int>, plain: map<string, int>, r: string, q: string)
    requires Best(index, r) && Best(plain, q) && r in index && q in plain && r in plain
    requires !Shifted(index, plain, r) && !Shifted(index, plain, q)
    ensures r == q
  {
    if r != q {
      AheadOfAll(index, r, q);
      AheadOfAll(plain, q, r);
    }
  }

  /** Two rankings, one over fewer workers, have the same winner exactly when there is nobody
      to rank or somebody outranks everything they disagree about. */
  lemma WinnersAgree(index: map<string, int>, plain: map<string, int>, r: string, q: string)
    requires Best(index, r) && Best(plain, q) && "" !in plain && index.Keys <= plain.Keys
    ensures r == q <==> plain == map[] || exists w :: Outranks(index, plain, w)
  {
    hide Best, AheadIn;
    if plain == map[] {
      assert index.Keys == {};
      BothEmpty(index, plain, r, q);
    } else if r == q {
      var c :| c in plain;
      WinnerKnown(plain, q, c);
      OneWinner(index, plain, q);
    } else if w :| Outranks(index, plain, w) {
      SameWinner(index, plain, r, q, w);
    }
  }

  lemma BothEmpty(index: map<string, int>, plain: map<string, int>, r: string, q: string)
    requires Best(index, r) && Best(plain, q) && index == map[] && plain == map[]
    ensures r == q
  {}

  lemma OneWinner(index: map<string, int>, plain: map<string, int>, q: string)
    requires Best(index, q) && Best(plain, q) && q in plain && q != ""
    ensures Outranks(index, plain, q)
  {
    hide AheadIn;
    forall c | c in plain && c != q ensures AheadIn(plain, q, c) && (c in index ==> AheadIn(index, q, c)) {
      AheadOfAll(plain, q, c);
      if c in index { AheadOfAll(index, q, c); }
    }
  }

  // ---- Prediction -----------------------------------------------------------------------------------

  /** The two predictions of one worker with capacity: the index lacks those at the sentinel,
      and ranks a hidden worker as a cold one. */
  lemma FinalsAgree(views: Views, stats: StatsMap, name: string, version: string, delay: int, wait: int, w: string)
    requires w in views && views[w].cached == KeySet(views[w].raw) && Reported(views[w].raw)
    ensures var key := ModelKeyFromParts(name, version);
            var index, plain := IndexFinals(views, stats, key, delay, wait),
              PlainFinals(views, stats, name, version, delay, wait);
            && (w in index <==> w in plain && Predictable(views[w], StatsOf(stats, key, w), key))
            && (w in index && index[w] != plain[w] ==> Hidden(views[w], name, version))
  {
    hide KeySet, Reported, Final, StatsOf;
    LookupsAgree(views[w].raw, name, version);
  }

  /** Over the same workers the index and the plain scan choose the same worker exactly when
      there is none, or one outranks every worker with capacity whose prediction is at the
      sentinel or whose cache the index does not see. Colon names included. */
  lemma PredictedAgree(views: Views, stats: StatsMap, name: string, version: string, delay: int, wait: int, r: string,
                       q: string)
    requires forall w :: w in views ==> w != "" && views[w].cached == KeySet(views[w].raw) && Reported(views[w].raw)
    requires Best(IndexFinals(views, stats, ModelKeyFromParts(name, version), delay, wait), r)
    requires Best(PlainFinals(views, stats, name, version, delay, wait), q)
    ensures var key := ModelKeyFromParts(name, version);
            var index, plain := IndexFinals(views, stats, key, delay, wait),
              PlainFinals(views, stats, name, version, delay, wait);
            && (r == q <==> plain == map[] || exists w :: Outranks(index, plain, w))
            && (forall w :: Shifted(index, plain, w) ==>
                  w in views
                    && (Hidden(views[w], name, version) || !Predictable(views[w], StatsOf(stats, key, w), key)))
  {
    hide Best, KeySet, Reported, Final, StatsOf, Prediction, Outranks, Hidden, Predictable;
    var key := ModelKeyFromParts(name, version);
    var index, plain := IndexFinals(views, stats, key, delay, wait),
      PlainFinals(views, stats, name, version, delay, wait);
    forall w | w in views ensures w in index ==> w in plain {
      FinalsAgree(views, stats, name, version, delay, wait, w);
    }
    forall w | Shifted(index, plain, w)
      ensures w in views && (Hidden(views[w], name, version) || !Predictable(views[w], StatsOf(stats, key, w), key))
    {
      FinalsAgree(views, stats, name, version, delay, wait, w);
    }
    WinnersAgree(index, plain, r, q);
  }

  /** What the plain scan makes of workers whose prediction is at the sentinel. */
  function AtSentinel(views: Views, stats: StatsMap, name: string, version: string, delay: int, wait: int)
    : map<string, int>
  {
    map w | w in views && views[w].HasCapacity()
            && !Predictable(views[w], StatsOf(stats, ModelKeyFromParts(name, version), w),
                            ModelKeyFromParts(name, version))
      :: PlainFinal(views[w], w, stats, name, version, delay, wait)
  }

  /** Where no free worker hides the model: they agree exactly when nobody has capacity or
      some indexed worker is ahead of every one at the sentinel. */
  lemma PredictedAgreeVisible(
    views: Views, stats: StatsMap, name: string, version: string, delay: int, wait: int, r: string, q: string)
    requires forall w :: w in views ==> w != "" && views[w].cached == KeySet(views[w].raw) && Reported(views[w].raw)
    requires forall w :: w in views && views[w].HasCapacity() ==> !Hidden(views[w], name, version)
    requires Best(IndexFinals(views, stats, ModelKeyFromParts(name, version), delay, wait), r)
    requires Best(PlainFinals(views, stats, name, version, delay, wait), q)
    ensures var index := IndexFinals(views, stats, ModelKeyFromParts(name, version), delay, wait);
            var capped := AtSentinel(views, stats, name, version, delay, wait);
            r == q <==> (index == map[] && capped == map[])
                        || exists w :: w in index && forall c :: c in capped ==>
                             Ahead(Entry(w, index[w]), Entry(c, capped[c]))
  {
    hide Best, KeySet, Reported, Final, PlainFinal, StatsOf, Prediction, Hidden, Outranks, Ahead;
    var key := ModelKeyFromParts(name, version);
    var index, plain := IndexFinals(views, stats, key, delay, wait),
      PlainFinals(views, stats, name, version, delay, wait);
    var capped := AtSentinel(views, stats, name, version, delay, wait);
    forall w | w in views && views[w].HasCapacity() ensures w in index ==> index[w] == plain[w] {
      FinalsAgree(views, stats, name, version, delay, wait, w);
    }
    assert plain.Keys == index.Keys + capped.Keys;
    PredictedAgree(views, stats, name, version, delay, wait, r, q);
    forall w ensures Outranks(index, plain, w) <==> w in index && forall c :: c in capped ==>
        Ahead(Entry(w, index[w]), Entry(c, capped[c]))
    {
      OutranksCold(index, capped, plain, 0, w);
    }
    assert plain == map[] <==> plain.Keys == {};
    assert index == map[] <==> index.Keys == {};
    assert capped == map[] <==> capped.Keys == {};
  }

  /** With a colon in the name the choices do differ: the plain scan sees that "b" holds the
      model, the index takes both workers for cold and goes by their IDs. */
  lemma ColonChangesTheChoice()
    ensures var views: Views :=
              map["a" := View("a", {}, {}, 1, 0), "b" := View("b", {"m:8b:v1"}, KeySet({"m:8b:v1"}), 1, 0)];
            && Reported(views["b"].raw)
            && Best(IndexFinals(views, map[], ModelKeyFromParts("m:8b", "v1"), 0, 0), "a")
            && Best(PlainFinals(views, map[], "m:8b", "v1", 0, 0), "b")
  {
    hide KeySet, IndexFinals, PlainFinals, Best;
    var raw: set<string> := {"m:8b:v1"};
    assert ModelKeyString("m:8b", "v1") == "m:8b:v1";
    var a, b := View("a", {}, {}, 1, 0), View("b", raw, KeySet(raw), 1, 0);
    var views: Views := map["a" := a, "b" := b];
    ColonIndex(views, a, b);
    ColonPlain(views, a, b);
    BestPair(IndexFinals(views, map[], ModelKeyFromParts("m:8b", "v1"), 0, 0), "a", "b");
    BestPair(PlainFinals(views, map[], "m:8b", "v1", 0, 0), "b", "a");
  }

  lemma ColonIndex(views: Views, a: View, b: View)
    requires views == map["a" := a, "b" := b]
    requires a == View("a", {}, {}, 1, 0) && b == View("b", {"m:8b:v1"}, KeySet({"m:8b:v1"}), 1, 0)
    ensures IndexFinals(views, map[], ModelKeyFromParts("m:8b", "v1"), 0, 0) == map["a" := 125, "b" := 125]
  {
    hide KeySet;
    ColonNeverKeyed({"m:8b:v1"}, "m:8b", "v1");
    var key := ModelKeyFromParts("m:8b", "v1");
    assert Prediction(a, NO_STATS, key) == 125 && Prediction(b, NO_STATS, key) == 125;
  }

  lemma ColonPlain(views: Views, a: View, b: View)
    requires views == map["a" := a, "b" := b] && ModelKeyString("m:8b", "v1") == "m:8b:v1"
    requires a == View("a", {}, {}, 1, 0) && b == View("b", {"m:8b:v1"}, KeySet({"m:8b:v1"}), 1, 0)
    ensures PlainFinals(views, map[], "m:8b", "v1", 0, 0) == map["a" := 125, "b" := 25]
  {
    hide KeySet, ModelKeyString;
    assert PlainFinal(a, "a", map[], "m:8b", "v1", 0, 0) == 125;
    assert PlainFinal(b, "b", map[], "m:8b", "v1", 0, 0) == 25;
  }

  lemma BestPair(ranks: map<string, int>, w: string, c: string)
    requires w != c && ranks.Keys == {w, c} && (ranks[w] < ranks[c] || (ranks[w] == ranks[c] && Before(w, c)))
    ensures Best(ranks, w)
  {}

  // ---- Locality ----------------------------------------------------------------------------------

  predicate Holds(view: View, name: string, version: string) {
    ModelKeyString(name, version) in view.raw
  }

  predicate AnyCached(views: Views, name: string, version: string) {
    exists w :: w in views && views[w].HasCapacity() && Holds(views[w], name, version)
  }

  /** What the plain locality scan compares: cold workers pay 1000 while the task may still
      wait for a cached worker with capacity. */
  function PlainRank(view: View, name: string, version: string, charged: bool): int {
    -LocalityScore(view, Holds(view, name, version)) + (if !Holds(view, name, version) && charged then 1000 else 0)
  }

  function PlainLocality(views: Views, name: string, version: string, waiting: bool): map<string, int> {
    map w | w in views && views[w].HasCapacity() ::
      PlainRank(views[w], name, version, AnyCached(views, name, version) && waiting)
  }

  /** preferredLLMWorker without a scheduler, over workers in any order. */
  method PlainLocal(views: Views, order: seq<string>, name: string, version: string, delay: int, wait: int)
    returns (best: string)
    requires "" !in views && (forall w :: w in order <==> w in views)
    requires forall i, j :: 0 <= i < j < |order| ==> order[i] != order[j]
    ensures Best(PlainLocality(views, name, version, delay < wait), best)
  {
    hide Best, Leads, Better, PlainRank, Holds;
    var hasCachedAvailable := false;
    for i := 0 to |order|
      invariant !hasCachedAvailable
      invariant forall k :: 0 <= k < i ==> !(views[order[k]].HasCapacity() && Holds(views[order[k]], name, version))
    {
      assert order[i] in order;
      if views[order[i]].HasCapacity() && Holds(views[order[i]], name, version) {
        hasCachedAvailable := true;
        break;
      }
    }
    best := "";
    var bestRank := 0;
    ghost var ranks, done := PlainLocality(views, name, version, delay < wait), {};
    LeadsStart(ranks);
    for i := 0 to |order|
      invariant Leads(ranks, done, best, bestRank) && done == set k | 0 <= k < i :: order[k]
    {
      var w := order[i];
      assert w in order;
      if views[w].HasCapacity() {
        var rank := PlainRank(views[w], name, version, hasCachedAvailable && delay < wait);
        LeadsMore(ranks, done, best, bestRank, w);
        if Better(best, bestRank, w, rank) {
          best, bestRank := w, rank;
        }
      } else {
        LeadsSkip(ranks, done, best, bestRank, w);
      }
      done := done + {w};
    }
    LeadsAll(ranks, done, best, bestRank);
  }

  /** What the indexed locality choice compares. */
  function IndexLocality(views: Views, key: ModelKey): map<string, int> {
    if CachedRanks(views, key) != map[] then CachedRanks(views, key) else ColdRanks(views, key)
  }

  /** Index and plain scan make the same locality choice exactly when nobody has capacity or
      one indexed worker outranks everything they disagree about. Colon names included. */
  lemma LocalityAgree(views: Views, name: string, version: string, waiting: bool, r: string, q: string)
    requires "" !in views
    requires Best(IndexLocality(views, ModelKeyFromParts(name, version)), r)
    requires Best(PlainLocality(views, name, version, waiting), q)
    ensures var index, plain := IndexLocality(views, ModelKeyFromParts(name, version)),
      PlainLocality(views, name, version, waiting);
            r == q <==> plain == map[] || exists w :: Outranks(index, plain, w)
  {
    hide Best, PlainRank, LocalityScore, Outranks;
    WinnersAgree(IndexLocality(views, ModelKeyFromParts(name, version)), PlainLocality(views, name, version, waiting),
                 r, q);
  }

  /** Where no free worker hides the model: they agree exactly when no cached worker has
      capacity, or a cached one is ahead of every cold one even at its handicap. */
  lemma LocalityAgreeVisible(views: Views, name: string, version: string, waiting: bool, r: string, q: string)
    requires forall w :: w in views ==> w != "" && views[w].cached == KeySet(views[w].raw) && Reported(views[w].raw)
    requires forall w :: w in views && views[w].HasCapacity() ==> !Hidden(views[w], name, version)
    requires Best(IndexLocality(views, ModelKeyFromParts(name, version)), r)
    requires Best(PlainLocality(views, name, version, waiting), q)
    ensures var cached, cold := CachedRanks(views, ModelKeyFromParts(name, version)),
      ColdRanks(views, ModelKeyFromParts(name, version));
            r == q <==>
              || cached == map[]
              || exists w :: w in cached && forall c :: c in cold ==>
                   Ahead(Entry(w, cached[w]), Entry(c, cold[c] + (if waiting then 1000 else 0)))
  {
    hide Best, LocalityScore, Reported, KeySet, Hidden, Outranks, Ahead, Holds, CachedRanks, ColdRanks, PlainLocality,
      AnyCached;
    var key := ModelKeyFromParts(name, version);
    var cached, cold, plain := CachedRanks(views, key), ColdRanks(views, key),
      PlainLocality(views, name, version, waiting);
    forall w | w in views && views[w].HasCapacity() ensures Holds(views[w], name, version) == (key in views[w].cached) {
      VisibleHolds(views[w], name, version);
    }
    var handicap := if waiting then 1000 else 0;
    VisibleRanks(views, name, version, waiting);
    if cached == map[] {
      BestUnique(cold, r, q);
    } else {
      LocalityAgree(views, name, version, waiting, r, q);
      var some :| some in cached;
      assert some in plain;
      forall w ensures Outranks(cached, plain, w) <==> w in cached && forall c :: c in cold ==>
          Ahead(Entry(w, cached[w]), Entry(c, cold[c] + handicap))
      {
        OutranksCold(cached, cold, plain, handicap, w);
      }
    }
  }

  /** What the plain ranks are when strings and keys tell the same. */
  lemma VisibleRanks(views: Views, name: string, version: string, waiting: bool)
    requires var key := ModelKeyFromParts(name, version);
             forall w :: w in views && views[w].HasCapacity()
               ==> Holds(views[w], name, version) == (key in views[w].cached)
    ensures var key := ModelKeyFromParts(name, version);
            var cached, cold, plain := CachedRanks(views, key), ColdRanks(views, key),
              PlainLocality(views, name, version, waiting);
            && cached.Keys !! cold.Keys && plain.Keys == cached.Keys + cold.Keys
            && (cached == map[] ==> plain == cold)
            && (forall c :: c in cached ==> plain[c] == cached[c])
            && (cached != map[] ==> forall c :: c in cold ==> plain[c] == cold[c] + (if waiting then 1000 else 0))
  {
    hide LocalityScore, Holds, AnyCached;
    var key := ModelKeyFromParts(name, version);
    SomeCached(views, name, version);
    assert forall w :: w in CachedRanks(views, key) ==> Holds(views[w], name, version);
    if CachedRanks(views, key) == map[] {
      assert forall w :: w in PlainLocality(views, name, version, waiting) ==> w !in CachedRanks(views, key);
    }
  }

  lemma SomeCached(views: Views, name: string, version: string)
    requires var key := ModelKeyFromParts(name, version);
             forall w :: w in views && views[w].HasCapacity()
               ==> Holds(views[w], name, version) == (key in views[w].cached)
    ensures AnyCached(views, name, version) <==> CachedRanks(views, ModelKeyFromParts(name, version)) != map[]
  {
    hide LocalityScore, Holds;
    var cached := CachedRanks(views, ModelKeyFromParts(name, version));
    if AnyCached(views, name, version) {
      var w :| w in views && views[w].HasCapacity() && Holds(views[w], name, version);
      assert w in cached;
    }
    if cached != map[] {
      var w :| w in cached;
    }
  }

  lemma VisibleHolds(view: View, name: string, version: string)
    requires view.cached == KeySet(view.raw) && Reported(view.raw) && !Hidden(view, name, version)
    ensures Holds(view, name, version) == (ModelKeyFromParts(name, version) in view.cached)
  {
    LookupsAgree(view.raw, name, version);
  }

  lemma OutranksCold(cached: map<string, int>, cold: map<string, int>, plain: map<string, int>, handicap: int,
                     w: string)
    requires cached.Keys !! cold.Keys && plain.Keys == cached.Keys + cold.Keys
    requires forall c :: c in cached ==> plain[c] == cached[c]
    requires forall c :: c in cold ==> plain[c] == cold[c] + handicap
    ensures Outranks(cached, plain, w) <==>
              w in cached && forall c :: c in cold ==> Ahead(Entry(w, cached[w]), Entry(c, cold[c] + handicap))
  {
    hide Ahead;
    if w in cached {
      assert forall c :: c in plain ==> (Shifted(cached, plain, c) <==> c in cold);
      if Outranks(cached, plain, w) {
        forall c | c in cold ensures Ahead(Entry(w, cached[w]), Entry(c, cold[c] + handicap)) {
          assert c in plain && Shifted(cached, plain, c) && AheadIn(plain, w, c);
        }
      }
    }
  }

  /** They do differ, even before the wait is over: a cached worker with one free slot
      loses to a cold one with thirty. */
  lemma LocalityDiffers()
    ensures var views: Views :=
              map["a" := View("a", {"m:v1"}, {ModelKey("m", "v1")}, 1, 0), "b" := View("b", {}, {}, 30, 0)];
            Best(IndexLocality(views, ModelKey("m", "v1")), "a") && Best(PlainLocality(views, "m", "v1", true), "b")
  {
    var key := ModelKey("m", "v1");
    var views: Views := map["a" := View("a", {"m:v1"}, {key}, 1, 0), "b" := View("b", {}, {}, 30, 0)];
    assert ModelKeyString("m", "v1") == "m:v1";
    assert views["a"].HasCapacity() && views["b"].HasCapacity() && "a" in CachedRanks(views, key);
    assert Holds(views["a"], "m", "v1") && !Holds(views["b"], "m", "v1");
    assert CachedRanks(views, key) == map["a" := -1100];
    assert PlainLocality(views, "m", "v1", true) == map["a" := -1100, "b" := -2000];
  }
}
