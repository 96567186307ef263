/** Metadata checkpoints for actors (internal/control/checkpoint.go:83-121,
    388-425): a seed state taken after the stream position it is filed under, and
    the tail of the log replayed on top of it. */
module ActorCheckpoint {
  import opened Basics
  import opened ActorLog
  import opened ActorSnapshot
  import opened ActorReplay

  // ---- Overlap -------------------------------------------------------------------

  /** While the tail re-applies records the seed already contains, every field of
      `t` holds either the seed's value or full replay's value so far. */
  predicate Between(t: State, f: State, seed: State) {
    && SameFrame(t, f) && SameFrame(t, seed) && SameOrigin(t, f) && SameOrigin(t, seed)
    && t.submitted == seed.submitted
    && (t.owner == f.owner || t.owner == seed.owner)
    && (t.epoch == f.epoch || t.epoch == seed.epoch)
    && (t.count == f.count || t.count == seed.count)
    && (t.snapshotRef == f.snapshotRef || t.snapshotRef == seed.snapshotRef)
    && (t.snapshotCount == f.snapshotCount || t.snapshotCount == seed.snapshotCount)
    && (t.stateJson == f.stateJson || t.stateJson == seed.stateJson)
    && (t.updatedAt == f.updatedAt || t.updatedAt == seed.updatedAt)
  }

  lemma BetweenStep(actorID: string, store: Store, t: State, f: State, seed: State, e: Event)
    requires StateInvariant(actorID, f) && Between(t, f, seed) && Admissible(store, f, false, e)
    requires Step(actorID, map[], Full, f, e).submitted <= seed.submitted
    ensures Between(Step(actorID, store, Tail, t, e), Step(actorID, map[], Full, f, e), seed)
  {
    hide Between, Step, StateInvariant, Admissible;
    if e.IsCommand() {
      BetweenCommand(actorID, store, t, f, seed, e);
    } else if e.Snapshot? {
      BetweenSnapshot(actorID, store, t, f, seed, e);
    } else {
      BetweenRest(actorID, store, t, f, seed, e);
    }
  }

  lemma BetweenCommand(actorID: string, store: Store, t: State, f: State, seed: State, e: Event)
    requires StateInvariant(actorID, f) && Between(t, f, seed) && Admissible(store, f, false, e)
    requires Step(actorID, map[], Full, f, e).submitted <= seed.submitted
    requires e.IsCommand()
    ensures Between(Step(actorID, store, Tail, t, e), Step(actorID, map[], Full, f, e), seed)
  {}

  lemma BetweenSnapshot(actorID: string, store: Store, t: State, f: State, seed: State, e: Event)
    requires StateInvariant(actorID, f) && Between(t, f, seed) && Admissible(store, f, false, e)
    requires Step(actorID, map[], Full, f, e).submitted <= seed.submitted
    requires e.Snapshot?
    ensures Between(Step(actorID, store, Tail, t, e), Step(actorID, map[], Full, f, e), seed)
  {}

  lemma BetweenRest(actorID: string, store: Store, t: State, f: State, seed: State, e: Event)
    requires StateInvariant(actorID, f) && Between(t, f, seed) && Admissible(store, f, false, e)
    requires Step(actorID, map[], Full, f, e).submitted <= seed.submitted
    requires !e.IsCommand() && !e.Snapshot?
    ensures Between(Step(actorID, store, Tail, t, e), Step(actorID, map[], Full, f, e), seed)
  {
    hide CreatedStep, CommandStep, SnapshotStep;
    match e
    case Granted(worker, epoch, at) =>
      assert Step(actorID, store, Tail, t, e) == t.(owner := worker, epoch := epoch, updatedAt := at);
    case Submitted(n, at) =>
      assert Step(actorID, store, Tail, t, e) == t.(submitted := t.submitted, updatedAt := at);
    case Unknown =>
  }

  lemma BetweenMeets(t: State, f: State)
    requires Between(t, f, f)
    ensures t == f
  {}

  lemma {:induction false} OverlapAt(actorID: string, store: Store, log: seq<Event>, k: nat, j: nat, cut: nat)
    requires actorID != "" && WellOrdered(actorID, store, log) && 1 <= k <= j <= cut <= |log|
    ensures Between(Fold(actorID, store, Tail, FullState(actorID, log[..cut]), log[k..j]),
                    FullState(actorID, log[..j]), FullState(actorID, log[..cut]))
    decreases j
  {
    hide WellOrdered, Step, Admissible, StateInvariant, FullState, Fold, Delta, Marks, MarksWith, Commands, Between;
    var seed := FullState(actorID, log[..cut]);
    if k == j {
      EmptySlice(actorID, store, Tail, seed, log, k);
      OverlapStart(actorID, store, log, k, cut);
    } else {
      OverlapAt(actorID, store, log, k, j - 1, cut);
      FoldSlice(actorID, store, Tail, seed, log, k, j - 1);
      RecordAt(actorID, store, log, j - 1);
      Monotone(actorID, store, log, j, cut);
      BetweenStep(actorID, store, Fold(actorID, store, Tail, seed, log[k..j - 1]),
                  FullState(actorID, log[..j - 1]), seed, log[j - 1]);
    }
  }

  lemma OverlapStart(actorID: string, store: Store, log: seq<Event>, k: nat, cut: nat)
    requires actorID != "" && WellOrdered(actorID, store, log) && 1 <= k <= cut <= |log|
    ensures Between(FullState(actorID, log[..cut]), FullState(actorID, log[..k]), FullState(actorID, log[..cut]))
  {
    hide WellOrdered, FullState;
    FrameStable(actorID, store, log, k, cut);
  }

  lemma TailStep(actorID: string, store: Store, f: State, e: Event)
    requires StateInvariant(actorID, f) && Admissible(store, f, false, e)
    ensures Step(actorID, store, Tail, f, e) == Step(actorID, map[], Full, f, e)
  {}

  /** A tail on top of a full-replay state is full replay. */
  lemma {:induction false} TailContinues(actorID: string, store: Store, log: seq<Event>, cut: nat, j: nat)
    requires actorID != "" && WellOrdered(actorID, store, log) && 1 <= cut <= j <= |log|
    ensures Fold(actorID, store, Tail, FullState(actorID, log[..cut]), log[cut..j]) == FullState(actorID, log[..j])
    decreases j
  {
    hide WellOrdered, Step, Admissible, StateInvariant, FullState, Fold, Delta, Marks, MarksWith, Commands;
    var seed := FullState(actorID, log[..cut]);
    if cut == j {
      EmptySlice(actorID, store, Tail, seed, log, cut);
    } else {
      TailContinues(actorID, store, log, cut, j - 1);
      FoldSlice(actorID, store, Tail, seed, log, cut, j - 1);
      RecordAt(actorID, store, log, j - 1);
      TailStep(actorID, store, FullState(actorID, log[..j - 1]), log[j - 1]);
    }
  }

  /** Replaying records the seed already contains changes nothing: for any cut at or
      after the recorded position, the tail reaches full replay on every field. */
  lemma OverlapAbsorbed(actorID: string, store: Store, log: seq<Event>, k: nat, cut: nat)
    requires actorID != "" && WellOrdered(actorID, store, log) && 1 <= k <= cut <= |log|
    ensures TailState(actorID, store, FullState(actorID, log[..cut]), log[k..]) == FullState(actorID, log)
  {
    hide WellOrdered, Admissible, FullState, Fold, Between;
    var seed := FullState(actorID, log[..cut]);
    RecordAt(actorID, store, log, cut - 1);
    OverlapAt(actorID, store, log, k, cut, cut);
    BetweenMeets(Fold(actorID, store, Tail, seed, log[k..cut]), seed);
    TailContinues(actorID, store, log, cut, |log|);
    assert log[k..cut] + log[cut..] == log[k..];
    assert log[cut..|log|] == log[cut..] && log[..|log|] == log;
    FoldAppend(actorID, store, Tail, seed, log[k..cut], log[cut..]);
  }

  lemma ConsistentStep(actorID: string, store: Store, a: State, b: State, e: Event)
    requires actorID != "" && a.actorID == actorID && Consistent(a, b)
    ensures Consistent(Step(actorID, store, Tail, a, e), Step(actorID, store, Tail, b, e))
    ensures Step(actorID, store, Tail, a, e).actorID == actorID
  {}

  /** The tail only depends on the durable fields of its seed. */
  lemma {:induction false} TailRespectsConsistent(actorID: string, store: Store, a: State, b: State, log: seq<Event>)
    requires actorID != "" && a.actorID == actorID && Consistent(a, b)
    ensures Consistent(Fold(actorID, store, Tail, a, log), Fold(actorID, store, Tail, b, log))
    ensures Fold(actorID, store, Tail, a, log).actorID == actorID
  {
    hide Step, Consistent;
    if log != [] {
      var before := log[..|log| - 1];
      TailRespectsConsistent(actorID, store, a, b, before);
      ConsistentStep(actorID, store, Fold(actorID, store, Tail, a, before),
                     Fold(actorID, store, Tail, b, before), log[|log| - 1]);
    }
  }

  /** A checkpoint whose actor state was copied at or after the position it records
      restarts to the state full replay reaches. */
  lemma CheckpointRestart(actorID: string, store: Store, log: seq<Event>, lastSeq: nat, cut: nat, seed: State)
    requires actorID != "" && WellOrdered(actorID, store, log)
    requires lastSeq <= cut && 1 <= cut <= |log|
    requires Consistent(seed, FullState(actorID, log[..cut]))
    ensures Consistent(TailState(actorID, store, seed, log[TailFrom(lastSeq)..]), FullState(actorID, log))
  {
    hide WellOrdered, Admissible, FullState, Fold;
    var k := TailFrom(lastSeq);
    RecordAt(actorID, store, log, cut - 1);
    OverlapAbsorbed(actorID, store, log, k, cut);
    TailRespectsConsistent(actorID, store, seed, FullState(actorID, log[..cut]), log[k..]);
  }

  // ---- A log trimmed past the checkpoint -------------------------------------------

  /** Tail replay from snapshot record `b` on top of a seed older than `b`: the
      snapshot restores everything but the two command counters. */
  predicate Restored(t: State, f: State, seed: State, commands: nat, marks: nat) {
    && SameCore(t.(count := f.count), f)
    && t.count == (if commands > 0 then f.count else seed.count)
    && t.submitted == Max(seed.submitted, marks)
  }

  lemma RestoredFirst(actorID: string, store: Store, f: State, seed: State, e: Event)
    requires StateInvariant(actorID, f) && Admissible(store, f, false, e) && e.Snapshot? && SameFrame(seed, f)
    ensures Restored(Step(actorID, store, Tail, seed, e), Step(actorID, map[], Full, f, e), seed, 0, 0)
  {}

  lemma RestoredStep(actorID: string, store: Store, t: State, f: State, seed: State, commands: nat, marks: nat,
                     e: Event)
    requires StateInvariant(actorID, f) && Admissible(store, f, false, e) && Restored(t, f, seed, commands, marks)
    ensures Restored(Step(actorID, store, Tail, t, e), Step(actorID, map[], Full, f, e), seed,
                     commands + if e.IsCommand() then 1 else 0, MarksWith(marks, e))
  {}

  lemma {:induction false} RestoredAt(actorID: string, store: Store, log: seq<Event>, cut: nat, b: nat, j: nat)
    requires actorID != "" && WellOrdered(actorID, store, log)
    requires 1 <= cut <= b < j <= |log| && log[b].Snapshot?
    ensures Restored(Fold(actorID, store, Tail, FullState(actorID, log[..cut]), log[b..j]),
                     FullState(actorID, log[..j]), FullState(actorID, log[..cut]),
                     Commands(Tail, log[b..j]), Marks(log[b..j]))
    decreases j
  {
    hide WellOrdered, Step, Admissible, StateInvariant, FullState, Fold, Delta, Marks, Commands, Restored;
    var seed := FullState(actorID, log[..cut]);
    FoldSlice(actorID, store, Tail, seed, log, b, j - 1);
    RecordAt(actorID, store, log, j - 1);
    if j == b + 1 {
      EmptySlice(actorID, store, Tail, seed, log, b);
      FrameStable(actorID, store, log, cut, b);
      RestoredFirst(actorID, store, FullState(actorID, log[..b]), seed, log[b]);
    } else {
      RestoredAt(actorID, store, log, cut, b, j - 1);
      RestoredStep(actorID, store, Fold(actorID, store, Tail, seed, log[b..j - 1]), FullState(actorID, log[..j - 1]),
                   seed, Commands(Tail, log[b..j - 1]), Marks(log[b..j - 1]), log[j - 1]);
    }
  }

  lemma {:induction false} TailCountsAll(log: seq<Event>)
    ensures Commands(Tail, log) == Commands(Full, log)
  {
    if log != [] {
      TailCountsAll(log[..|log| - 1]);
    }
  }

  /** The submission counter of full replay, split at the seed and at the trim. */
  lemma MarksSplit(actorID: string, store: Store, log: seq<Event>, cut: nat, b: nat)
    requires actorID != "" && WellOrdered(actorID, store, log) && cut <= b <= |log|
    ensures FullState(actorID, log).submitted
            == Max(Max(FullState(actorID, log[..cut]).submitted, Marks(log[cut..b])), Marks(log[b..]))
  {
    hide FullState, Marks;
    WellOrderedPrefix(actorID, store, log, cut);
    MarksFull(actorID, store, log);
    MarksFull(actorID, store, log[..cut]);
    assert log[..cut] + log[cut..b] == log[..b] && log[..b] + log[b..] == log;
    MarksAppend(log[..cut], log[cut..b]);
    MarksAppend(log[..b], log[b..]);
  }

  /** Nothing a seed needs was lost between it and the trim: no command was trimmed unseen,
      or a later command re-establishes the count; and no trimmed submission is above what
      the seed and the tail mention. */
  predicate Unharmed(log: seq<Event>, cut: nat, b: nat, submitted: nat)
    requires cut <= b <= |log|
  {
    && (Commands(Full, log[cut..b]) == 0 || Commands(Full, log[b..]) > 0)
    && Marks(log[cut..b]) <= Max(submitted, Marks(log[b..]))
  }

  /** When a snapshot trims the log past the checkpoint, the tail starts at that snapshot
      record, and the record does not carry the command count into the state: the restart is
      consistent exactly when nothing was lost. The seed is the checkpointed row. */
  lemma TrimmedPastCheckpoint(actorID: string, store: Store, log: seq<Event>, cut: nat, b: nat, seed: State)
    requires actorID != "" && WellOrdered(actorID, store, log)
    requires 1 <= cut <= b < |log| && log[b].Snapshot? && Consistent(seed, FullState(actorID, log[..cut]))
    ensures Consistent(TailState(actorID, store, seed, log[b..]), FullState(actorID, log))
            <==> Unharmed(log, cut, b, seed.submitted)
  {
    hide WellOrdered, Admissible, FullState, Fold, Marks, Commands, Unharmed;
    RecordAt(actorID, store, log, cut - 1);
    TrimmedPastReplay(actorID, store, log, cut, b);
    TailRespectsConsistent(actorID, store, seed, FullState(actorID, log[..cut]), log[b..]);
  }

  lemma TrimmedPastReplay(actorID: string, store: Store, log: seq<Event>, cut: nat, b: nat)
    requires actorID != "" && WellOrdered(actorID, store, log)
    requires 1 <= cut <= b < |log| && log[b].Snapshot?
    ensures
      var seed := FullState(actorID, log[..cut]);
      Consistent(TailState(actorID, store, seed, log[b..]), FullState(actorID, log))
      <==> Unharmed(log, cut, b, seed.submitted)
  {
    hide WellOrdered, Admissible, FullState, Fold, Delta, Marks, Commands;
    RecordAt(actorID, store, log, cut - 1);
    RestoredAt(actorID, store, log, cut, b, |log|);
    assert log[b..|log|] == log[b..] && log[..|log|] == log;
    TailCountsAll(log[b..]);
    CommandsNone(actorID, store, log, cut, b);
    CommandsNone(actorID, store, log, b, |log|);
    MarksSplit(actorID, store, log, cut, b);
  }

  /** A smallest such log: one command applied and snapshotted after the checkpoint. */
  lemma TrimLosesTheCount()
    ensures
      var state := Bytes("s", 0);
      var store := map["r" := state];
      var log := [Created("C", "src", EMPTY, 1, "", "", 1), Granted("w", 1, 2), Submitted(1, 3),
                  Applied(1, 1, "w", 1, state, 4), Snapshot("C", "src", EMPTY, "w", 1, "r", 1, 1, 5)];
      && WellOrdered("a", store, log)
      && TailState("a", store, FullState("a", log[..2]), log[4..]).count == 0
      && FullState("a", log).count == FullState("a", log).snapshotCount == 1
  {
    hide FullState, WellOrdered, Fold;
    var state := Bytes("s", 0);
    var store := map["r" := state];
    var log := [Created("C", "src", EMPTY, 1, "", "", 1), Granted("w", 1, 2), Submitted(1, 3),
                Applied(1, 1, "w", 1, state, 4), Snapshot("C", "src", EMPTY, "w", 1, "r", 1, 1, 5)];
    var created := NewState("a", log[0]);
    var owned := created.(owner := "w", epoch := 1, updatedAt := 2);
    var pending := owned.(submitted := 1, updatedAt := 3);
    var done := pending.(count := 1, stateJson := state, updatedAt := 4);
    FirstRecord("a", store, log[0], created);
    assert log[..1] == [log[0]];
    NextRecord("a", store, log, 1, created, owned);
    NextRecord("a", store, log, 2, owned, pending);
    NextRecord("a", store, log, 3, pending, done);
    NextRecord("a", store, log, 4, done, done.(snapshotRef := "r", snapshotCount := 1, updatedAt := 5));
    assert log[..5] == log && log[4..5] == log[4..];
    EmptySlice("a", store, Tail, owned, log, 4);
    FoldSlice("a", store, Tail, owned, log, 4, 4);
    TailSnapshot(store, owned, log[4]);
  }

  lemma TailSnapshot(store: Store, s: State, e: Event)
    requires e.Snapshot?
    ensures Step("a", store, Tail, s, e).count == s.count
  {}

  // ---- Restoring every actor ----------------------------------------------------------

  /** What is readable of a stream: its records after `trimmed` dropped ones. Sequence numbers
      keep counting from the first record ever (internal/logstore/store.go:365-386). */
  datatype Stream = Stream(trimmed: nat, records: seq<Event>)

  type Streams = map<string, Stream>

  datatype CheckpointActor = CheckpointActor(actorID: string, state: State)

  predicate ItemRestored(item: CheckpointActor, lastSeqs: map<string, nat>,
                         streams: Streams, loader: Loader, meta: map<string, State>)
  {
    var r := RestoreItem(item, lastSeqs, streams, loader);
    r.Success? && item.actorID in meta && meta[item.actorID] == r.value.state
  }

  predicate ItemsRestored(items: seq<CheckpointActor>, n: nat, lastSeqs: map<string, nat>,
                          streams: Streams, loader: Loader, meta: map<string, State>)
    requires n <= |items|
  {
    forall i :: 0 <= i < n ==> ItemRestored(items[i], lastSeqs, streams, loader, meta)
  }

  function ItemIDs(items: seq<CheckpointActor>, n: nat): set<string>
    requires n <= |items|
  {
    if n == 0 then {} else ItemIDs(items, n - 1) + {items[n - 1].actorID}
  }

  /** The first error among the items' tails. */
  function RestoreError(items: seq<CheckpointActor>, n: nat, lastSeqs: map<string, nat>,
                        streams: Streams, loader: Loader): Option<ReplayError>
    requires n <= |items|
  {
    if n == 0 then None
    else
      var before := RestoreError(items, n - 1, lastSeqs, streams, loader);
      var r := RestoreItem(items[n - 1], lastSeqs, streams, loader);
      if before.Some? then before else if r.Failure? then Some(r.error) else None
  }

  lemma {:induction false} RestoreErrorSticks(items: seq<CheckpointActor>, i: nat, n: nat, lastSeqs: map<string, nat>,
                                              streams: Streams, loader: Loader)
    requires i <= n <= |items| && RestoreError(items, i, lastSeqs, streams, loader).Some?
    ensures RestoreError(items, n, lastSeqs, streams, loader) == RestoreError(items, i, lastSeqs, streams, loader)
    decreases n
  {
    hide RestoreItem;
    if i < n {
      RestoreErrorSticks(items, i, n - 1, lastSeqs, streams, loader);
    }
  }

  predicate StreamRestored(a: string, log: seq<Event>, loader: Loader, meta: map<string, State>) {
    var r := RawReplay(a, log, loader);
    (r.Success? <==> a in meta) && (r.Success? ==> meta[a] == r.value.state)
  }

  predicate StreamsRestored(ids: set<string>, streams: Streams, loader: Loader, meta: map<string, State>)
    requires ids <= streams.Keys
  {
    forall a :: a in ids ==> StreamRestored(a, streams[a].records, loader, meta)
  }

  function Upsert(meta: map<string, State>, actorID: string, state: State): (r: map<string, State>)
    ensures actorID in r && r[actorID] == state && r.Keys == meta.Keys + {actorID}
    ensures forall a :: a in meta && a != actorID ==> r[a] == meta[a]
  {
    meta[actorID := state]
  }

  lemma NoItems(items: seq<CheckpointActor>, lastSeqs: map<string, nat>, streams: Streams, loader: Loader)
    ensures ItemsRestored(items, 0, lastSeqs, streams, loader, map[])
  {}

  lemma ItemsExtend(items: seq<CheckpointActor>, n: nat, lastSeqs: map<string, nat>,
                    streams: Streams, loader: Loader, meta: map<string, State>)
    requires forall i, j :: 0 <= i < j < |items| ==> items[i].actorID != items[j].actorID
    requires n < |items| && ItemsRestored(items, n, lastSeqs, streams, loader, meta)
    requires RestoreItem(items[n], lastSeqs, streams, loader).Success?
    ensures var state := RestoreItem(items[n], lastSeqs, streams, loader).value.state;
            ItemsRestored(items, n + 1, lastSeqs, streams, loader, Upsert(meta, items[n].actorID, state))
  {
    hide RestoreItem, Upsert;
  }

  method RestoreOne(item: CheckpointActor, lastSeqs: map<string, nat>, streams: Streams, loader: Loader)
    returns (r: Result<ReplayResult, ReplayError>)
    ensures r == RestoreItem(item, lastSeqs, streams, loader)
  {
    hide TailReplay;
    var tail := ReadFrom(item.actorID, TailFrom(LastSeq(item.actorID, lastSeqs)), streams);
    r := ReplayFromState(item.actorID, item.state, tail, loader);
  }

  /** The checkpointed actors: their seeds with the tails of their streams on top. */
  method RestoreItems(items: seq<CheckpointActor>, lastSeqs: map<string, nat>,
                      streams: Streams, loader: Loader)
    returns (meta: map<string, State>, error: Option<ReplayError>)
    requires forall i, j :: 0 <= i < j < |items| ==> items[i].actorID != items[j].actorID
    ensures error == RestoreError(items, |items|, lastSeqs, streams, loader)
    ensures error.None? ==> ItemsRestored(items, |items|, lastSeqs, streams, loader, meta)
    ensures error.None? ==> meta.Keys == ItemIDs(items, |items|)
  {
    hide RestoreItem, ItemsRestored, Upsert;
    NoItems(items, lastSeqs, streams, loader);
    meta := map[];
    for i := 0 to |items|
      invariant RestoreError(items, i, lastSeqs, streams, loader).None?
      invariant meta.Keys == ItemIDs(items, i)
      invariant ItemsRestored(items, i, lastSeqs, streams, loader, meta)
    {
      var replayed := RestoreOne(items[i], lastSeqs, streams, loader);
      if replayed.Failure? {
        RestoreErrorSticks(items, i + 1, |items|, lastSeqs, streams, loader);
        return meta, Some(replayed.error);
      }
      ItemsExtend(items, i, lastSeqs, streams, loader, meta);
      meta := Upsert(meta, items[i].actorID, replayed.value.state);
    }
    error := None;
  }

  /** Full replay of streams the checkpoint does not know. */
  method RestoreStreams(ids: set<string>, streams: Streams, loader: Loader, known: map<string, State>)
    returns (meta: map<string, State>)
    requires ids <= streams.Keys && ids !! known.Keys
    ensures StreamsRestored(ids, streams, loader, meta)
    ensures forall a :: a in known ==> a in meta && meta[a] == known[a]
    ensures meta.Keys <= known.Keys + ids
  {
    hide RawReplay;
    meta := known;
    var todo := ids;
    while todo != {}
      invariant todo <= ids && todo !! meta.Keys
      invariant forall a :: a in known ==> a in meta && meta[a] == known[a]
      invariant meta.Keys <= known.Keys + ids
      invariant StreamsRestored(ids - todo, streams, loader, meta)
      decreases todo
    {
      var a :| a in todo;
      ghost var before := meta;
      todo := todo - {a};
      var replayed := ReplayRawEach(a, streams[a].records, loader);
      if replayed.Success? {
        meta := Upsert(meta, a, replayed.value.state);
      }
      assert StreamRestored(a, streams[a].records, loader, meta);
      forall x | x in ids - todo && x != a ensures StreamRestored(x, streams[x].records, loader, meta) {
        assert x in ids - (todo + {a}) && StreamRestored(x, streams[x].records, loader, before);
      }
    }
    assert ids - todo == ids;
  }

  /** bootstrapCheckpointActors: tails on top of checkpointed actors, full replay of
      the streams the checkpoint does not know; an unreplayable unknown stream is
      skipped, a failing tail fails the restart. */
  method BootstrapCheckpointActors(items: seq<CheckpointActor>, lastSeqs: map<string, nat>,
                                   streams: Streams, loader: Loader)
    returns (meta: map<string, State>, error: Option<ReplayError>)
    requires forall i, j :: 0 <= i < j < |items| ==> items[i].actorID != items[j].actorID
    ensures error.None? ==> ItemsRestored(items, |items|, lastSeqs, streams, loader, meta)
    ensures error.None? ==>
      StreamsRestored(streams.Keys - ItemIDs(items, |items|), streams, loader, meta)
    ensures error == RestoreError(items, |items|, lastSeqs, streams, loader)
  {
    hide RestoreItem, StreamsRestored;
    meta, error := RestoreItems(items, lastSeqs, streams, loader);
    if error.Some? {
      return;
    }
    var seen := ItemIDs(items, |items|);
    var seeded := meta;
    meta := RestoreStreams(streams.Keys - seen, streams, loader, seeded);
    forall i | 0 <= i < |items| ensures ItemRestored(items[i], lastSeqs, streams, loader, meta) {
      assert ItemRestored(items[i], lastSeqs, streams, loader, seeded);
    }
  }

  function LastSeq(actorID: string, lastSeqs: map<string, nat>): nat {
    if actorID in lastSeqs then lastSeqs[actorID] else 0
  }

  /** The readable records of a stream from record `k` on, counted from creation. */
  function ReadFrom(actorID: string, k: nat, streams: Streams): seq<Event> {
    if actorID !in streams then []
    else
      var skip := if k > streams[actorID].trimmed then k - streams[actorID].trimmed else 0;
      if skip <= |streams[actorID].records| then streams[actorID].records[skip..] else []
  }

  function RestoreItem(item: CheckpointActor, lastSeqs: map<string, nat>, streams: Streams, loader: Loader)
    : Result<ReplayResult, ReplayError>
  {
    TailReplay(item.actorID, item.state,
               ReadFrom(item.actorID, TailFrom(LastSeq(item.actorID, lastSeqs)), streams), loader)
  }

  /** What one checkpointed actor restores, next to full replay of everything ever logged. A
      log trimmed up to the seed restores consistently; one trimmed past it exactly when
      nothing the seed needs was lost. */
  lemma RestoreItemConsistent(item: CheckpointActor, lastSeqs: map<string, nat>, streams: Streams,
                              store: Store, log: seq<Event>, b: nat, cut: nat)
    requires item.actorID != "" && item.actorID in streams && WellOrdered(item.actorID, store, log)
    requires b < |log| && streams[item.actorID] == Stream(b, log[b..]) && (b == 0 || log[b].Snapshot?)
    requires LastSeq(item.actorID, lastSeqs) <= cut && 1 <= cut <= |log|
    requires Consistent(item.state, FullState(item.actorID, log[..cut]))
    ensures var r := RestoreItem(item, lastSeqs, streams, Some(store));
            && r.Success?
            && (Consistent(r.value.state, FullState(item.actorID, log))
                <==> b <= cut || Unharmed(log, cut, b, item.state.submitted))
    ensures var full := RawReplay(item.actorID, streams[item.actorID].records, Some(store));
            b == 0 ==> full.Success? && full.value.state == FullState(item.actorID, log)
  {
    hide WellOrdered, Fold, FullState, FirstStepError, Unharmed, Consistent, TailState, RawReplay, Commands;
    var k := TailFrom(LastSeq(item.actorID, lastSeqs));
    var from := if b > k then b else k;
    NoReplayErrors(item.actorID, store, log, from, Tail);
    TailConsistent(item, store, log, from, cut);
    if b == 0 {
      WholeLogReplay(item.actorID, store, log);
    }
  }

  lemma WholeLogReplay(actorID: string, store: Store, log: seq<Event>)
    requires actorID != "" && WellOrdered(actorID, store, log) && log != []
    ensures var full := RawReplay(actorID, log[0..], Some(store));
            full.Success? && full.value.state == FullState(actorID, log)
  {
    hide WellOrdered, FullState, RawReplay, AssistedState, Unskipped, LastSnapshot;
    ReplayCounters(actorID, store, log, 0);
    assert log[0..] == log;
    AssistedEqualsFull(actorID, store, log);
  }

  /** The tail from `from` on: an overlap with the seed, or a gap that ends at a snapshot. */
  lemma TailConsistent(item: CheckpointActor, store: Store, log: seq<Event>, from: nat, cut: nat)
    requires item.actorID != "" && WellOrdered(item.actorID, store, log) && 1 <= from && 1 <= cut <= |log|
      && from <= |log|
    requires from > cut ==> from < |log| && log[from].Snapshot?
    requires Consistent(item.state, FullState(item.actorID, log[..cut]))
    ensures item.state.actorID == item.actorID
    ensures TailState(item.actorID, store, item.state, log[from..]).actorID == item.actorID
    ensures Consistent(TailState(item.actorID, store, item.state, log[from..]), FullState(item.actorID, log))
            <==> from <= cut || Unharmed(log, cut, from, item.state.submitted)
  {
    hide WellOrdered, Fold, FullState, Unharmed;
    RecordAt(item.actorID, store, log, cut - 1);
    TailRespectsConsistent(item.actorID, store, item.state, FullState(item.actorID, log[..cut]), log[from..]);
    if from <= cut {
      OverlapAbsorbed(item.actorID, store, log, from, cut);
    } else {
      TrimmedPastCheckpoint(item.actorID, store, log, cut, from, item.state);
    }
  }
}
