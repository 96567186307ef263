/** Snapshot-assisted replay against full replay, on untrimmed logs and on logs
    trimmed at a snapshot record (internal/actor/model.go:158-360). */
module ActorSnapshot {
  import opened Basics
  import opened ActorLog

  /** No snapshot record at or after position `from`. */
  predicate NoSnapshots(log: seq<Event>, from: nat) {
    forall k :: from <= k < |log| ==> !log[k].Snapshot?
  }

  /** Index of the latest snapshot record, -1 when there is none. */
  function LastSnapshot(log: seq<Event>): (i: int)
    ensures -1 <= i < |log|
    ensures i >= 0 ==> log[i].Snapshot?
    ensures NoSnapshots(log, i + 1)
  {
    if log == [] then -1
    else if log[|log| - 1].Snapshot? then |log| - 1
    else LastSnapshot(log[..|log| - 1])
  }

  // ---- The first pass ---------------------------------------------------------

  function Hydrated(actorID: string, store: Store, e: Event): State
    requires e.Snapshot?
  {
    State(actorID, e.className, e.classSource, e.initArgs, Active, e.worker, e.epoch,
          e.snapshotCount, e.snapshotCount, e.every, e.ref, e.snapshotCount,
          NormalizeJSON(Load(store, e.ref)), "", "", 0, e.at)
  }

  lemma {:induction false} HydrateIdle(actorID: string, store: Store, log: seq<Event>)
    ensures Hydrate(actorID, store, log).idemKey == "" && Hydrate(actorID, store, log).idemFingerprint == ""
    ensures Hydrate(actorID, store, log).createdAt == 0
  {
    if log != [] {
      HydrateIdle(actorID, store, log[..|log| - 1]);
    }
  }

  lemma {:induction false} HydrateLatest(actorID: string, store: Store, log: seq<Event>, i: nat)
    requires i < |log| && log[i].Snapshot? && log[i].ref != "" && NoSnapshots(log, i + 1)
    ensures Hydrate(actorID, store, log) == Hydrated(actorID, store, log[i])
    decreases |log|
  {
    var n := |log| - 1;
    if i == n {
      HydrateIdle(actorID, store, log[..n]);
    } else {
      HydrateLatest(actorID, store, log[..n], i);
    }
  }

  lemma {:induction false} HydrateNothing(actorID: string, store: Store, log: seq<Event>)
    requires NoSnapshots(log, 0)
    ensures Hydrate(actorID, store, log) == NONE
  {
    if log != [] {
      HydrateNothing(actorID, store, log[..|log| - 1]);
    }
  }

  // ---- The second pass ----------------------------------------------------------

  /** Origin as assisted replay knows it: only creation tells. */
  predicate OriginOf(whole: bool, a: State, f: State) {
    if whole then SameOrigin(a, f) else SameOrigin(a, NONE)
  }

  /** The second pass below the snapshot of command `n`: `f` is full replay, `a` the
      assisted fold, `marks` what the segment read so far mentions. The pass holds the
      snapshot's command count and skips every command. */
  predicate Below(n: nat, whole: bool, marks: nat, f: State, a: State) {
    && SameFrame(a, f)
    && a.count == n
    && a.submitted == Max(n, marks)
    && OriginOf(whole, a, f)
  }

  /** The second pass at and above that snapshot. */
  predicate Above(n: nat, whole: bool, marks: nat, f: State, a: State) {
    && SameCore(a, f)
    && a.submitted == Max(n, marks)
    && OriginOf(whole, a, f)
  }

  lemma BelowStep(actorID: string, store: Store, n: nat, whole: bool, marks: nat, f: State, a: State, e: Event)
    requires StateInvariant(actorID, f) && Below(n, whole, marks, f, a) && Admissible(store, f, false, e)
    requires e.IsCommand() ==> e.commandCount <= n
    ensures Below(n, whole, MarksWith(marks, e),
                  Step(actorID, map[], Full, f, e), Step(actorID, store, Assisted(n), a, e))
  {}

  lemma SnapshotMeets(actorID: string, store: Store, whole: bool, marks: nat, f: State, a: State, e: Event)
    requires StateInvariant(actorID, f) && Admissible(store, f, false, e) && e.Snapshot?
    requires Below(e.snapshotCount, whole, marks, f, a)
    ensures Above(e.snapshotCount, whole, MarksWith(marks, e),
                  Step(actorID, map[], Full, f, e), Step(actorID, store, Assisted(e.snapshotCount), a, e))
  {}

  lemma AboveStep(actorID: string, store: Store, n: nat, whole: bool, marks: nat, f: State, a: State, e: Event)
    requires StateInvariant(actorID, f) && Above(n, whole, marks, f, a) && Admissible(store, f, false, e)
    requires !e.Snapshot? && n <= f.count
    ensures Above(n, whole, MarksWith(marks, e),
                  Step(actorID, map[], Full, f, e), Step(actorID, store, Assisted(n), a, e))
  {}

  /** The hydrated state seen from any earlier full-replay state. */
  lemma HydratedFrame(actorID: string, store: Store, f: State, e: Event)
    requires StateInvariant(actorID, f) && Admissible(store, f, false, e) && e.Snapshot?
    ensures SameFrame(Hydrated(actorID, store, e), f) && SameOrigin(Hydrated(actorID, store, e), NONE)
  {}

  /** Creation is the first record read: it restores the origin. */
  lemma BelowCreated(actorID: string, store: Store, n: nat, h: State, f: State, e: Event)
    requires actorID != "" && Admissible(store, NONE, true, e)
    requires SameFrame(h, f) && SameOrigin(h, NONE) && h.count == h.submitted == n
    requires f == Step(actorID, map[], Full, NONE, e) && f.actorID == actorID
    ensures Below(n, true, 0, f, Step(actorID, store, Assisted(n), h, e))
  {}

  /** The first record read: creation, or the snapshot record a trim left in front. */
  lemma BelowFirst(actorID: string, store: Store, log: seq<Event>, b: nat, i: nat)
    requires actorID != "" && WellOrdered(actorID, store, log)
    requires b < i < |log| && log[i].Snapshot?
    requires b == 0 || log[b].Snapshot?
    ensures Below(log[i].snapshotCount, b == 0, MarksWith(0, log[b]), FullState(actorID, log[..b + 1]),
                  Step(actorID, store, Assisted(log[i].snapshotCount), Hydrated(actorID, store, log[i]), log[b]))
  {
    hide WellOrdered, Step, Admissible, StateInvariant, FullState, Delta;
    var n := log[i].snapshotCount;
    var h := Hydrated(actorID, store, log[i]);
    RecordAt(actorID, store, log, i);
    RecordAt(actorID, store, log, b);
    FrameStable(actorID, store, log, b + 1, i);
    HydratedFrame(actorID, store, FullState(actorID, log[..i]), log[i]);
    if b > 0 {
      BelowStep(actorID, store, n, false, 0, FullState(actorID, log[..b]), h, log[b]);
    } else {
      NothingYet(actorID, log);
      BelowCreated(actorID, store, n, h, FullState(actorID, log[..1]), log[0]);
    }
  }

  lemma {:induction false} BelowSnapshot(actorID: string, store: Store, log: seq<Event>, b: nat, j: nat, i: nat)
    requires actorID != "" && WellOrdered(actorID, store, log)
    requires b < j <= i < |log| && log[i].Snapshot?
    requires b == 0 || log[b].Snapshot?
    ensures Below(log[i].snapshotCount, b == 0, Marks(log[b..j]), FullState(actorID, log[..j]),
                  Fold(actorID, store, Assisted(log[i].snapshotCount), Hydrated(actorID, store, log[i]), log[b..j]))
    ensures Commands(Assisted(log[i].snapshotCount), log[b..j]) == 0
    decreases j
  {
    hide WellOrdered, Step, Admissible, StateInvariant, FullState, Delta, Below, Hydrated, Fold, Marks, MarksWith,
      Commands;
    var n := log[i].snapshotCount;
    var h := Hydrated(actorID, store, log[i]);
    FoldSlice(actorID, store, Assisted(n), h, log, b, j - 1);
    OldCommand(actorID, store, log, j - 1, i);
    if b == j - 1 {
      EmptySlice(actorID, store, Assisted(n), h, log, b);
      BelowFirst(actorID, store, log, b, i);
    } else {
      BelowSnapshot(actorID, store, log, b, j - 1, i);
      RecordAt(actorID, store, log, j - 1);
      BelowStep(actorID, store, n, b == 0, Marks(log[b..j - 1]), FullState(actorID, log[..j - 1]),
                Fold(actorID, store, Assisted(n), h, log[b..j - 1]), log[j - 1]);
    }
  }

  lemma OldCommand(actorID: string, store: Store, log: seq<Event>, j: nat, i: nat)
    requires actorID != "" && WellOrdered(actorID, store, log)
    requires j < i < |log| && log[i].Snapshot?
    ensures log[j].IsCommand() ==> log[j].commandCount <= log[i].snapshotCount
  {
    hide WellOrdered, Step, Admissible, StateInvariant, FullState;
    RecordAt(actorID, store, log, j);
    RecordAt(actorID, store, log, i);
    Monotone(actorID, store, log, j + 1, i);
  }

  lemma {:induction false} FromSnapshot(actorID: string, store: Store, log: seq<Event>, b: nat, i: nat, j: nat)
    requires actorID != "" && WellOrdered(actorID, store, log)
    requires b <= i < j <= |log| && log[i].Snapshot? && NoSnapshots(log, i + 1)
    requires b == 0 || log[b].Snapshot?
    ensures Above(log[i].snapshotCount, b == 0, Marks(log[b..j]), FullState(actorID, log[..j]),
                  Fold(actorID, store, Assisted(log[i].snapshotCount), Hydrated(actorID, store, log[i]), log[b..j]))
    ensures FullState(actorID, log[..j]).snapshotCount == log[i].snapshotCount
    decreases j
  {
    hide WellOrdered, Step, Admissible, StateInvariant, FullState, Above, Hydrated, Fold, Marks, MarksWith, Commands;
    var n := log[i].snapshotCount;
    var h := Hydrated(actorID, store, log[i]);
    FoldSlice(actorID, store, Assisted(n), h, log, b, j - 1);
    RecordAt(actorID, store, log, j - 1);
    if j > i + 1 {
      FromSnapshot(actorID, store, log, b, i, j - 1);
      RecordAt(actorID, store, log, i);
      Monotone(actorID, store, log, i, j - 1);
      AboveStep(actorID, store, n, b == 0, Marks(log[b..j - 1]), FullState(actorID, log[..j - 1]),
                Fold(actorID, store, Assisted(n), h, log[b..j - 1]), log[j - 1]);
    } else {
      AtSnapshot(actorID, store, log, b, i);
    }
  }

  /** The second pass applies the commands after the latest snapshot. */
  lemma {:induction false} CommandsPast(actorID: string, store: Store, log: seq<Event>, b: nat, i: nat, j: nat)
    requires actorID != "" && WellOrdered(actorID, store, log)
    requires b <= i < j <= |log| && log[i].Snapshot? && (b == 0 || log[b].Snapshot?)
    ensures Commands(Assisted(log[i].snapshotCount), log[b..j]) == Commands(Full, log[i + 1..j])
    decreases j
  {
    hide WellOrdered, Step, Admissible, StateInvariant, FullState, Above, Fold, Marks, MarksWith, Commands;
    var n := log[i].snapshotCount;
    FoldSlice(actorID, store, Assisted(n), NONE, log, b, j - 1);
    if j > i + 1 {
      FoldSlice(actorID, store, Full, NONE, log, i + 1, j - 1);
      CommandsPast(actorID, store, log, b, i, j - 1);
      RecordAt(actorID, store, log, j - 1);
      RecordAt(actorID, store, log, i);
      Monotone(actorID, store, log, i, j - 1);
    } else {
      AtSnapshot(actorID, store, log, b, i);
      EmptySlice(actorID, store, Full, NONE, log, i + 1);
    }
  }

  lemma AtSnapshot(actorID: string, store: Store, log: seq<Event>, b: nat, i: nat)
    requires actorID != "" && WellOrdered(actorID, store, log)
    requires b <= i < |log| && log[i].Snapshot? && (b == 0 || log[b].Snapshot?)
    ensures var n := log[i].snapshotCount;
            var below := Fold(actorID, store, Assisted(n), Hydrated(actorID, store, log[i]), log[b..i]);
            && Above(n, b == 0, MarksWith(Marks(log[b..i]), log[i]), FullState(actorID, log[..i + 1]),
                     Step(actorID, store, Assisted(n), below, log[i]))
            && Commands(Assisted(n), log[b..i]) == 0
  {
    hide WellOrdered, Step, Admissible, StateInvariant, FullState, Above, Fold, Marks, MarksWith, Commands, Delta;
    var n := log[i].snapshotCount;
    var h := Hydrated(actorID, store, log[i]);
    var f := FullState(actorID, log[..i]);
    RecordAt(actorID, store, log, i);
    if b < i {
      BelowSnapshot(actorID, store, log, b, i, i);
      SnapshotMeets(actorID, store, b == 0, Marks(log[b..i]), f, Fold(actorID, store, Assisted(n), h, log[b..i]),
                    log[i]);
    } else {
      EmptySlice(actorID, store, Assisted(n), h, log, b);
      HydratedFrame(actorID, store, f, log[i]);
      SnapshotMeets(actorID, store, false, 0, f, h, log[i]);
    }
  }

  lemma PlainStep(actorID: string, store: Store, s: State, e: Event)
    requires !e.Snapshot? && (e.IsCommand() ==> e.commandCount >= 1)
    ensures Step(actorID, store, Assisted(0), s, e) == Step(actorID, map[], Full, s, e)
  {}

  lemma {:induction false} AssistedWithoutSnapshots(actorID: string, store: Store, log: seq<Event>)
    requires actorID != "" && WellOrdered(actorID, store, log) && NoSnapshots(log, 0)
    ensures Fold(actorID, store, Assisted(0), NONE, log) == FullState(actorID, log)
    ensures Commands(Assisted(0), log) == Commands(Full, log)
    ensures FullState(actorID, log).snapshotCount == 0
  {
    hide WellOrdered, Step, Admissible, StateInvariant;
    if log != [] {
      var n := |log| - 1;
      RecordAt(actorID, store, log, n);
      AssistedWithoutSnapshots(actorID, store, log[..n]);
      assert log[..n + 1] == log;
      PlainStep(actorID, store, FullState(actorID, log[..n]), log[n]);
    }
  }

  // ---- Main results -------------------------------------------------------------

  /** The readable log from `b` on, replayed with its latest snapshot. */
  lemma ReadableFrom(actorID: string, store: Store, log: seq<Event>, b: nat)
    requires actorID != "" && WellOrdered(actorID, store, log) && b < |log|
    requires b == 0 || log[b].Snapshot?
    requires LastSnapshot(log) >= 0
    ensures var i := LastSnapshot(log);
            && i >= b
            && Hydrate(actorID, store, log[b..]) == Hydrated(actorID, store, log[i])
            && Above(log[i].snapshotCount, b == 0, Marks(log[b..]), FullState(actorID, log),
                     AssistedState(actorID, store, log[b..]))
            && FullState(actorID, log).snapshotCount == log[i].snapshotCount
            && Commands(Assisted(log[i].snapshotCount), log[b..]) == Commands(Full, log[i + 1..])
  {
    hide WellOrdered, Step, Admissible, StateInvariant, FullState, Above, Fold, Marks, Commands, Hydrate;
    var i := LastSnapshot(log);
    RecordAt(actorID, store, log, i);
    HydrateLatest(actorID, store, log[b..], i - b);
    FromSnapshot(actorID, store, log, b, i, |log|);
    CommandsPast(actorID, store, log, b, i, |log|);
    assert log[..|log|] == log && log[b..|log|] == log[b..] && log[i + 1..|log|] == log[i + 1..];
  }

  /** Snapshot-assisted replay is full replay, on every field. */
  lemma AssistedEqualsFull(actorID: string, store: Store, log: seq<Event>)
    requires actorID != "" && WellOrdered(actorID, store, log) && log != []
    ensures AssistedState(actorID, store, log) == FullState(actorID, log)
  {
    hide WellOrdered, Step, Admissible, FullState, Fold, Marks, Commands, Hydrate, Hydrated;
    if LastSnapshot(log) < 0 {
      HydrateNothing(actorID, store, log);
      AssistedWithoutSnapshots(actorID, store, log);
    } else {
      ReadableFrom(actorID, store, log, 0);
      assert log[0..] == log;
      MarksFull(actorID, store, log);
      FullInvariant(actorID, store, log);
    }
  }

  /** Reading the log only from snapshot record `b` on changes nothing in assisted
      replay except that the creation identity is gone and the submission counter
      is unchanged exactly when no record older than `b` mentions a command above
      everything the readable log still mentions. */
  lemma TrimmedReplay(actorID: string, store: Store, log: seq<Event>, b: nat)
    requires actorID != "" && WellOrdered(actorID, store, log) && b < |log| && log[b].Snapshot?
    ensures
      var full := AssistedState(actorID, store, log);
      var cut := AssistedState(actorID, store, log[b..]);
      && SameCore(cut, full)
      && SameOrigin(cut, NONE)
      && cut.submitted == Max(full.snapshotCount, Marks(log[b..]))
      && (cut.submitted == full.submitted <==> Marks(log[..b]) <= Max(full.snapshotCount, Marks(log[b..])))
      && (Consistent(cut, full) <==> cut.submitted == full.submitted)
  {
    hide WellOrdered, Step, Admissible, FullState, Fold, Marks, Commands, Hydrate, Hydrated;
    RecordAt(actorID, store, log, b);
    FullInvariant(actorID, store, log);
    ReadableFrom(actorID, store, log, b);
    AssistedEqualsFull(actorID, store, log);
    MarksFull(actorID, store, log);
    assert log[..b] + log[b..] == log;
    MarksAppend(log[..b], log[b..]);
  }

  /** Right after the trim the latest snapshot is the last record: the counter
      survives exactly when no submitted command is still pending. */
  lemma TrimWhilePending(actorID: string, store: Store, log: seq<Event>)
    requires actorID != "" && WellOrdered(actorID, store, log) && log != [] && log[|log| - 1].Snapshot?
    ensures
      var full := AssistedState(actorID, store, log);
      var cut := AssistedState(actorID, store, log[|log| - 1..]);
      Consistent(cut, full) <==> full.submitted == full.count
  {
    hide WellOrdered, Step, Admissible, FullState, Fold, Commands, Hydrate, Hydrated;
    var b := |log| - 1;
    TrimmedReplay(actorID, store, log, b);
    AssistedEqualsFull(actorID, store, log);
    RecordAt(actorID, store, log, b);
    FullInvariant(actorID, store, log);
    assert log[..b + 1] == log && log[b..] == [log[b]];
    assert Marks(log[b..]) == 0 by { assert log[b..][..0] == []; }
  }

  /** A snapshot record appended to any log: the two replays stay together exactly when it has
      full replay's count and state. It does not when a repeated call moved the live row on
      without a record. */
  lemma SnapshotSeparates(actorID: string, store: Store, log: seq<Event>, e: Event)
    requires actorID != "" && WellOrdered(actorID, store, log) && log != []
    requires var f := FullState(actorID, log);
             && e.Snapshot? && e.className == f.className && e.classSource == f.classSource && e.initArgs == f.initArgs
             && e.every == f.every && e.worker == f.owner != "" && e.epoch == f.epoch
             && e.snapshotCount >= Max(f.count, 1) && e.ref != "" && e.ref in store
    ensures var f := FullState(actorID, log);
            AssistedState(actorID, store, log + [e]) == FullState(actorID, log + [e])
            <==> e.snapshotCount == f.count && NormalizeJSON(store[e.ref]) == f.stateJson
  {
    hide WellOrdered, Fold, Hydrate, Step;
    FullInvariant(actorID, store, log);
    var f, more := FullState(actorID, log), log + [e];
    var n := e.snapshotCount;
    assert more[..|log|] == log;
    if n == f.count && NormalizeJSON(store[e.ref]) == f.stateJson {
      Extend(actorID, store, log, f, e);
      AssistedEqualsFull(actorID, store, more);
    } else {
      FoldLast(actorID, map[], Full, NONE, log, e);
      FoldLast(actorID, store, Assisted(n), Hydrated(actorID, store, e), log, e);
      HydrateLatest(actorID, store, more, |log|);
      LogSuperseded(actorID, store, log, 0, n);
      assert log[0..] == log;
      EarlyFold(actorID, store, f, n, Hydrated(actorID, store, e), log);
      SnapshotCounts(actorID, store, n, Fold(actorID, store, Assisted(n), Hydrated(actorID, store, e), log), f, e);
    }
  }

  lemma FoldLast(actorID: string, store: Store, mode: Mode, s: State, log: seq<Event>, e: Event)
    ensures Fold(actorID, store, mode, s, log + [e])
      == Step(actorID, store, mode, Fold(actorID, store, mode, s, log), e)
  {
    hide Step;
    assert (log + [e])[..|log|] == log;
  }

  lemma SnapshotCounts(actorID: string, store: Store, n: nat, g: State, f: State, e: Event)
    requires e.Snapshot? && e.ref in store && e.ref != ""
    ensures Step(actorID, map[], Full, f, e).count == f.count
      && Step(actorID, map[], Full, f, e).stateJson == f.stateJson
    ensures Step(actorID, store, Assisted(n), g, e).count == g.count
    ensures Step(actorID, store, Assisted(n), g, e).stateJson == NormalizeJSON(store[e.ref])
  {}

  // ---- Records before a snapshot ------------------------------------------------------------

  /** A record of the same actor whose effect a later snapshot of command `n` overrides. */
  predicate Superseded(store: Store, f: State, n: nat, e: Event) {
    && !e.Undecodable?
    && (e.IsCommand() ==> e.commandSeq <= e.commandCount <= n)
    && (e.Created? || e.Snapshot? ==>
          e.className == f.className && e.classSource == f.classSource && e.initArgs == f.initArgs
            && e.every == f.every)
    && (e.Snapshot? ==> e.ref != "" && e.ref in store)
  }

  predicate AllSuperseded(store: Store, f: State, n: nat, early: seq<Event>) {
    forall k :: 0 <= k < |early| ==> Superseded(store, f, n, early[k])
  }

  lemma AdmissibleSuperseded(store: Store, f: State, g: State, n: nat, first: bool, e: Event)
    requires Admissible(store, f, first, e) && (!first ==> SameFrame(f, g)) && (e.IsCommand() ==> e.commandSeq <= n)
    requires e.Created? ==>
      e.className == g.className && e.classSource == g.classSource && e.initArgs == g.initArgs && e.every == g.every
    ensures Superseded(store, g, n, e)
  {}

  lemma CreatedFrame(actorID: string, store: Store, e: Event)
    requires Admissible(store, NONE, true, e)
    ensures var f := Step(actorID, map[], Full, NONE, e);
            e.className == f.className && e.classSource == f.classSource && e.initArgs == f.initArgs
              && e.every == f.every
  {}

  lemma LogSuperseded(actorID: string, store: Store, log: seq<Event>, b: nat, n: nat)
    requires actorID != "" && WellOrdered(actorID, store, log) && log != [] && b <= |log|
    requires FullState(actorID, log).count <= n
    ensures AllSuperseded(store, FullState(actorID, log), n, log[b..])
  {
    hide WellOrdered, Step, Admissible, StateInvariant, FullState, Superseded;
    var f := FullState(actorID, log);
    forall k | b <= k < |log| ensures Superseded(store, f, n, log[k]) {
      RecordAt(actorID, store, log, k);
      Monotone(actorID, store, log, k + 1, |log|);
      FrameStable(actorID, store, log, k + 1, |log|);
      assert log[..|log|] == log;
      if k == 0 {
        NothingYet(actorID, log);
        CreatedFrame(actorID, store, log[0]);
      }
      AdmissibleSuperseded(store, FullState(actorID, log[..k]), f, n, k == 0, log[k]);
    }
    forall k | 0 <= k < |log[b..]| ensures Superseded(store, f, n, log[b..][k]) {
      assert log[b..][k] == log[b + k];
    }
  }

  /** Superseded records move the hydrated state only where the snapshot sets it again - and
      the submission counter. */
  predicate Moved(n: nat, marks: nat, h: State, g: State) {
    SameFrame(g, h) && g.count == n && g.submitted == Max(n, marks)
  }

  lemma MovedStep(actorID: string, store: Store, f: State, n: nat, marks: nat, h: State, g: State, e: Event)
    requires Superseded(store, f, n, e) && SameFrame(h, f) && Moved(n, marks, h, g)
    requires actorID == f.actorID != "" && f.status == Active && f.every > 0
    ensures Moved(n, MarksWith(marks, e), h, Step(actorID, store, Assisted(n), g, e))
  {}

  lemma {:induction false} EarlyFold(actorID: string, store: Store, f: State, n: nat, h: State, early: seq<Event>)
    requires AllSuperseded(store, f, n, early) && SameFrame(h, f) && h.count == h.submitted == n
    requires actorID == f.actorID != "" && f.status == Active && f.every > 0
    ensures Moved(n, Marks(early), h, Fold(actorID, store, Assisted(n), h, early))
    ensures Commands(Assisted(n), early) == 0
  {
    hide Step, Superseded, Moved, MarksWith;
    if early == [] {
      MovedSelf(n, h);
    } else {
      var before, e := early[..|early| - 1], early[|early| - 1];
      EarlyFold(actorID, store, f, n, h, before);
      MovedStep(actorID, store, f, n, Marks(before), h, Fold(actorID, store, Assisted(n), h, before), e);
      SkippedCommand(store, f, n, e);
    }
  }

  lemma MovedSelf(n: nat, h: State)
    requires h.count == h.submitted == n
    ensures Moved(n, 0, h, h)
  {}

  lemma SkippedCommand(store: Store, f: State, n: nat, e: Event)
    requires Superseded(store, f, n, e)
    ensures e.IsCommand() ==> Assisted(n).Skips(e)
  {}

  /** The same state but for origin, with a higher submission counter. */
  predicate Alike(x: State, y: State, marks: nat) {
    SameCore(x, y) && x.submitted == Max(y.submitted, marks)
  }

  lemma AlikeStep(actorID: string, store: Store, n: nat, x: State, y: State, marks: nat, e: Event)
    requires Alike(x, y, marks) && !e.Created?
    ensures Alike(Step(actorID, store, Assisted(n), x, e), Step(actorID, store, Assisted(n), y, e), marks)
  {}

  lemma AlikeFirst(actorID: string, store: Store, n: nat, g: State, h: State, marks: nat, e: Event)
    requires Moved(n, marks, h, g) && h.count == h.submitted == n
    requires e.Snapshot? && e.worker != "" && e.epoch != 0 && e.ref != ""
    ensures Alike(Step(actorID, store, Assisted(n), g, e), Step(actorID, store, Assisted(n), h, e), marks)
  {}

  lemma {:induction false} AlikeFold(actorID: string, store: Store, n: nat, g: State, h: State, marks: nat,
                                     rest: seq<Event>)
    requires Moved(n, marks, h, g) && h.count == h.submitted == n
    requires rest != [] && rest[0].Snapshot? && rest[0].worker != "" && rest[0].epoch != 0 && rest[0].ref != ""
    requires forall k :: 0 <= k < |rest| ==> !rest[k].Created?
    ensures Alike(Fold(actorID, store, Assisted(n), g, rest), Fold(actorID, store, Assisted(n), h, rest), marks)
  {
    hide Step, Moved, Alike;
    var before := rest[..|rest| - 1];
    if before == [] {
      AlikeFirst(actorID, store, n, g, h, marks, rest[0]);
    } else {
      AlikeFold(actorID, store, n, g, h, marks, before);
      AlikeStep(actorID, store, n, Fold(actorID, store, Assisted(n), g, before),
                Fold(actorID, store, Assisted(n), h, before),
                marks, rest[|rest| - 1]);
    }
  }

  /** The latest snapshot of a readable log, and what follows it. */
  lemma LatestFrame(actorID: string, store: Store, log: seq<Event>, b: nat)
    requires actorID != "" && WellOrdered(actorID, store, log) && 0 < b < |log| && log[b].Snapshot?
    ensures var i := LastSnapshot(log);
            && i >= b && log[b].snapshotCount <= log[i].snapshotCount
            && SameFrame(Hydrated(actorID, store, log[i]), FullState(actorID, log))
            && log[b].worker != "" && log[b].epoch != 0 && log[b].ref != ""
            && forall k :: b <= k < |log| ==> !log[k].Created?
  {
    hide WellOrdered, Step, StateInvariant, FullState, Hydrated;
    var i := LastSnapshot(log);
    RecordAt(actorID, store, log, i);
    RecordAt(actorID, store, log, b);
    Monotone(actorID, store, log, b, i);
    FrameStable(actorID, store, log, i, |log|);
    assert log[..|log|] == log;
    HydratedFrame(actorID, store, FullState(actorID, log[..i]), log[i]);
    SnapshotOwned(actorID, FullState(actorID, log[..b]), store, log[b]);
    forall k | b <= k < |log| ensures !log[k].Created? {
      RecordAt(actorID, store, log, k);
    }
  }

  lemma SnapshotOwned(actorID: string, s: State, store: Store, e: Event)
    requires StateInvariant(actorID, s) && Admissible(store, s, false, e) && e.Snapshot?
    ensures e.worker != "" && e.epoch != 0 && e.ref != ""
  {}

  /** Superseded records in front of a readable log change its assisted replay in the origin
      and the submission counter only. */
  lemma EarlierReplay(actorID: string, store: Store, early: seq<Event>, log: seq<Event>, b: nat)
    requires actorID != "" && WellOrdered(actorID, store, log) && 0 < b < |log| && log[b].Snapshot?
    requires AllSuperseded(store, FullState(actorID, log), log[b].snapshotCount, early)
    ensures Alike(AssistedState(actorID, store, early + log[b..]), AssistedState(actorID, store, log[b..]),
                  Marks(early))
    ensures var h := Hydrate(actorID, store, log[b..]);
            && Hydrate(actorID, store, early + log[b..]) == h
            && Commands(Assisted(h.snapshotCount), early + log[b..]) == Commands(Assisted(h.snapshotCount), log[b..])
  {
    hide WellOrdered, Step, Admissible, FullState, Fold, Marks, Commands, Hydrate, Superseded, Alike, Moved;
    var i, rest := LastSnapshot(log), log[b..];
    LatestFrame(actorID, store, log, b);
    var h, n := Hydrated(actorID, store, log[i]), log[i].snapshotCount;
    RecordAt(actorID, store, log, i);
    HydrateLatest(actorID, store, rest, i - b);
    HydrateLatest(actorID, store, early + rest, |early| + i - b);
    FullInvariant(actorID, store, log);
    MoreSuperseded(store, FullState(actorID, log), log[b].snapshotCount, n, early);
    EarlyFold(actorID, store, FullState(actorID, log), n, h, early);
    AlikeFold(actorID, store, n, Fold(actorID, store, Assisted(n), h, early), h, Marks(early), rest);
    FoldAppend(actorID, store, Assisted(n), h, early, rest);
    CommandsAppend(Assisted(n), early, rest);
  }

  lemma MoreSuperseded(store: Store, f: State, n: nat, m: nat, early: seq<Event>)
    requires AllSuperseded(store, f, n, early) && n <= m
    ensures AllSuperseded(store, f, m, early)
  {}

  lemma {:induction false} CommandsAppend(mode: Mode, a: seq<Event>, b: seq<Event>)
    ensures Commands(mode, a + b) == Commands(mode, a) + Commands(mode, b)
    decreases |b|
  {
    if b == [] {
      assert a + b == a;
    } else {
      CommandsAppend(mode, a, b[..|b| - 1]);
      assert (a + b)[..|a + b| - 1] == a + b[..|b| - 1];
    }
  }
}
