/** The replay procedures themselves (internal/actor/model.go:158-500): record by
    record over the log, with their error returns and replay counters. */
module ActorReplay {
  import opened Basics
  import opened ActorLog
  import opened ActorSnapshot

  datatype ReplayError = BadPayload | LoaderRequired | LoadFailed | CreateNotFound

  datatype ReplayResult = ReplayResult(state: State, fullCommands: nat, snapshotCommands: nat)

  type Loader = Option<Store>

  function StoreOf(loader: Loader): Store {
    if loader.Some? then loader.value else map[]
  }

  function LoadError(loader: Loader, ref: string): Option<ReplayError> {
    if ref == "" then None
    else if loader.None? then Some(LoaderRequired)
    else if ref !in loader.value then Some(LoadFailed)
    else None
  }

  /** The error one record raises in the hydration pass. */
  function ScanError(loader: Loader, e: Event): Option<ReplayError> {
    match e
    case Snapshot(_, _, _, _, _, ref, _, _, _) => LoadError(loader, ref)
    case Undecodable(inSnapshot) => if inSnapshot then Some(BadPayload) else None
    case _ => None
  }

  /** The error one record raises in the applying pass. */
  function StepError(loader: Loader, mode: Mode, e: Event): Option<ReplayError> {
    match e
    case Snapshot(_, _, _, _, _, ref, _, _, _) => if mode.Loads() then LoadError(loader, ref) else None
    case Undecodable(_) => Some(BadPayload)
    case _ => None
  }

  function FirstScanError(loader: Loader, log: seq<Event>): Option<ReplayError> {
    if log == [] then None
    else
      var n := |log| - 1;
      var before := FirstScanError(loader, log[..n]);
      if before.Some? then before else ScanError(loader, log[n])
  }

  function FirstStepError(loader: Loader, mode: Mode, log: seq<Event>): Option<ReplayError> {
    if log == [] then None
    else
      var n := |log| - 1;
      var before := FirstStepError(loader, mode, log[..n]);
      if before.Some? then before else StepError(loader, mode, log[n])
  }

  function Finish(s: State, commands: nat, useSnapshot: bool): Result<ReplayResult, ReplayError> {
    if s.actorID == "" then Failure(CreateNotFound)
    else if useSnapshot then Success(ReplayResult(s, 0, commands))
    else Success(ReplayResult(s, commands, 0))
  }

  function FullReplay(actorID: string, log: seq<Event>, loader: Loader): Result<ReplayResult, ReplayError> {
    var error := FirstStepError(loader, Full, log);
    if error.Some? then Failure(error.value)
    else Finish(FullState(actorID, log), Commands(Full, log), false)
  }

  function AssistedReplay(actorID: string, log: seq<Event>, loader: Loader): Result<ReplayResult, ReplayError> {
    var store := StoreOf(loader);
    var scan := FirstScanError(loader, log);
    var mode := Assisted(Hydrate(actorID, store, log).snapshotCount);
    var error := FirstStepError(loader, mode, log);
    if scan.Some? then Failure(scan.value)
    else if error.Some? then Failure(error.value)
    else Finish(AssistedState(actorID, store, log), Commands(mode, log), true)
  }

  function TailReplay(actorID: string, initial: State, log: seq<Event>, loader: Loader)
    : Result<ReplayResult, ReplayError>
  {
    var error := FirstStepError(loader, Tail, log);
    if error.Some? then Failure(error.value)
    else Finish(TailState(actorID, StoreOf(loader), initial, log), Commands(Tail, log), true)
  }

  lemma {:induction false} ScanErrorSticks(loader: Loader, log: seq<Event>, i: nat)
    requires i <= |log| && FirstScanError(loader, log[..i]).Some?
    ensures FirstScanError(loader, log) == FirstScanError(loader, log[..i])
    decreases |log|
  {
    if i < |log| {
      assert log[..|log| - 1][..i] == log[..i];
      ScanErrorSticks(loader, log[..|log| - 1], i);
    } else {
      assert log[..i] == log;
    }
  }

  lemma {:induction false} StepErrorSticks(loader: Loader, mode: Mode, log: seq<Event>, i: nat)
    requires i <= |log| && FirstStepError(loader, mode, log[..i]).Some?
    ensures FirstStepError(loader, mode, log) == FirstStepError(loader, mode, log[..i])
    decreases |log|
  {
    if i < |log| {
      assert log[..|log| - 1][..i] == log[..i];
      StepErrorSticks(loader, mode, log[..|log| - 1], i);
    } else {
      assert log[..i] == log;
    }
  }

  /** The fold of full replay does not read the store. */
  lemma {:induction false} FullIgnoresStore(actorID: string, store: Store, s: State, log: seq<Event>)
    ensures Fold(actorID, store, Full, s, log) == Fold(actorID, map[], Full, s, log)
  {
    if log != [] {
      FullIgnoresStore(actorID, store, s, log[..|log| - 1]);
    }
  }

  /** The hydration pass of replayEach. */
  method HydratePass(actorID: string, log: seq<Event>, loader: Loader)
    returns (state: State, error: Option<ReplayError>)
    ensures error == FirstScanError(loader, log)
    ensures error.None? ==> state == Hydrate(actorID, StoreOf(loader), log)
  {
    state := NONE;
    for i := 0 to |log|
      invariant FirstScanError(loader, log[..i]).None?
      invariant state == Hydrate(actorID, StoreOf(loader), log[..i])
    {
      assert log[..i + 1][..i] == log[..i];
      var e := log[i];
      if e == Undecodable(true) {
        ScanErrorSticks(loader, log, i + 1);
        return state, Some(BadPayload);
      }
      if !e.Snapshot? || e.ref == "" {
        continue;
      }
      if loader.None? {
        ScanErrorSticks(loader, log, i + 1);
        return state, Some(LoaderRequired);
      }
      if e.ref !in loader.value {
        ScanErrorSticks(loader, log, i + 1);
        return state, Some(LoadFailed);
      }
      state := state.(actorID := actorID, className := e.className, classSource := e.classSource,
                      initArgs := e.initArgs, status := Active,
                      owner := e.worker, epoch := e.epoch, stateJson := NormalizeJSON(loader.value[e.ref]),
                      snapshotRef := e.ref, snapshotCount := e.snapshotCount,
                      count := e.snapshotCount, submitted := e.snapshotCount,
                      every := e.every, updatedAt := e.at);
    }
    assert log[..|log|] == log;
    error := None;
  }

  /** The counters and ownership a command record carries, shared by its two kinds. */
  method ApplyCommand(before: State, e: Event) returns (state: State)
    requires e.IsCommand()
    ensures var count := if e.commandSeq > 0 then e.commandSeq else e.commandCount;
            state == before.(count := count, submitted := Max(before.submitted, count),
                             owner := if e.worker != "" then e.worker else before.owner,
                             epoch := if e.epoch != 0 then e.epoch else before.epoch)
  {
    state := before;
    if e.commandSeq > 0 {
      state := state.(count := e.commandSeq);
    } else {
      state := state.(count := e.commandCount);
    }
    if state.count > state.submitted {
      state := state.(submitted := state.count);
    }
    if e.worker != "" {
      state := state.(owner := e.worker);
    }
    if e.epoch != 0 {
      state := state.(epoch := e.epoch);
    }
  }

  /** The fields a snapshot record carries inline. */
  method ApplySnapshotFields(actorID: string, before: State, e: Event) returns (state: State)
    requires e.Snapshot?
    ensures state == SnapshotStep(actorID, map[], Full, before, e)
  {
    state := before.(actorID := actorID);
    if e.className != "" {
      state := state.(className := e.className);
    }
    if e.classSource != "" {
      state := state.(classSource := e.classSource);
    }
    if e.initArgs != EMPTY {
      state := state.(initArgs := e.initArgs);
    }
    if e.every > 0 {
      state := state.(every := e.every);
    }
    state := state.(status := Active);
    if e.worker != "" {
      state := state.(owner := e.worker);
    }
    if e.epoch != 0 {
      state := state.(epoch := e.epoch);
    }
    state := state.(snapshotRef := e.ref, snapshotCount := e.snapshotCount, updatedAt := e.at);
  }

  /** One record of an applying pass; `applied` tells whether a command was counted. */
  method ApplyRecord(actorID: string, loader: Loader, mode: Mode, before: State, e: Event)
    returns (state: State, applied: bool, error: Option<ReplayError>)
    ensures error == StepError(loader, mode, e)
    ensures error.None? ==> state == Step(actorID, StoreOf(loader), mode, before, e)
    ensures applied <==> e.IsCommand() && !mode.Skips(e)
  {
    state, applied, error := before, false, None;
    match e {
      case Created(_, _, _, _, _, _, _) =>
        if state.actorID == "" {
          state := NewState(actorID, e);
        } else {
          state := state.(actorID := actorID, className := e.className, classSource := e.classSource,
                          initArgs := e.initArgs, status := Active, every := e.every);
          if state.createdAt == 0 {
            state := state.(createdAt := e.at);
          }
        }
        state := state.(idemKey := e.idemKey, idemFingerprint := e.idemFingerprint);
      case Granted(worker, epoch, at) =>
        state := state.(owner := worker, epoch := epoch, updatedAt := at);
      case Submitted(n, at) =>
        if n > state.submitted {
          state := state.(submitted := n);
        }
        state := state.(updatedAt := at);
      case Applied(_, _, _, _, _, _) =>
        if mode.Assisted? && e.commandCount <= mode.covered {
          return;
        }
        state := ApplyCommand(state, e);
        state := state.(stateJson := NormalizeJSON(e.stateJson), updatedAt := e.at);
        applied := true;
      case Failed(_, _, _, _, _) =>
        if mode.Assisted? && e.commandCount <= mode.covered {
          return;
        }
        state := ApplyCommand(state, e);
        state := state.(updatedAt := e.at);
        applied := true;
      case Snapshot(_, _, _, _, _, _, _, _, _) =>
        state := ApplySnapshotFields(actorID, state, e);
        if !mode.Full? && e.ref != "" {
          if loader.None? {
            return state, false, Some(LoaderRequired);
          }
          if e.ref !in loader.value {
            return state, false, Some(LoadFailed);
          }
          state := state.(stateJson := NormalizeJSON(loader.value[e.ref]));
        }
      case Unknown =>
      case Undecodable(_) =>
        error := Some(BadPayload);
    }
  }

  /** The applying pass shared by the three replays. */
  method ApplyPass(actorID: string, loader: Loader, mode: Mode, start: State, log: seq<Event>)
    returns (state: State, commands: nat, error: Option<ReplayError>)
    ensures error == FirstStepError(loader, mode, log)
    ensures error.None? ==> state == Fold(actorID, StoreOf(loader), mode, start, log)
    ensures error.None? ==> commands == Commands(mode, log)
  {
    hide Step, StepError;
    state, commands := start, 0;
    for i := 0 to |log|
      invariant FirstStepError(loader, mode, log[..i]).None?
      invariant state == Fold(actorID, StoreOf(loader), mode, start, log[..i])
      invariant commands == Commands(mode, log[..i])
    {
      assert log[..i + 1][..i] == log[..i];
      var applied;
      state, applied, error := ApplyRecord(actorID, loader, mode, state, log[i]);
      if error.Some? {
        StepErrorSticks(loader, mode, log, i + 1);
        return;
      }
      if applied {
        commands := commands + 1;
      }
    }
    assert log[..|log|] == log;
    error := None;
  }

  /** replayEach: an optional hydration pass, then one pass that applies records. */
  method ReplayEach(actorID: string, log: seq<Event>, loader: Loader, useSnapshot: bool)
    returns (r: Result<ReplayResult, ReplayError>)
    ensures r == if useSnapshot then AssistedReplay(actorID, log, loader) else FullReplay(actorID, log, loader)
  {
    hide Step, Fold, Hydrate, Commands, FirstStepError, FirstScanError;
    var start, mode := NONE, Full;
    if useSnapshot {
      var scanError;
      start, scanError := HydratePass(actorID, log, loader);
      if scanError.Some? {
        return Failure(scanError.value);
      }
      mode := Assisted(start.snapshotCount);
    }
    var state, commands, error := ApplyPass(actorID, loader, mode, start, log);
    if error.Some? {
      return Failure(error.value);
    }
    FullIgnoresStore(actorID, StoreOf(loader), NONE, log);
    if state.actorID == "" {
      return Failure(CreateNotFound);
    }
    if useSnapshot {
      return Success(ReplayResult(state, 0, commands));
    }
    return Success(ReplayResult(state, commands, 0));
  }

  /** ReplayFromStateRawEach: a tail of records on top of a given state. */
  method ReplayFromState(actorID: string, initial: State, log: seq<Event>, loader: Loader)
    returns (r: Result<ReplayResult, ReplayError>)
    ensures r == TailReplay(actorID, initial, log, loader)
  {
    hide Step, Fold, Commands, FirstStepError;
    var start := initial;
    if start.actorID == "" {
      start := start.(actorID := actorID);
    }
    var state, commands, error := ApplyPass(actorID, loader, Tail, start, log);
    if error.Some? {
      return Failure(error.value);
    }
    if state.actorID == "" {
      return Failure(CreateNotFound);
    }
    return Success(ReplayResult(state, 0, commands));
  }

  /** ReplayRawEach as one value: assisted state, with the full-replay counter
      repaired when the log no longer reaches back to creation. */
  function RawReplay(actorID: string, log: seq<Event>, loader: Loader): Result<ReplayResult, ReplayError> {
    var full := FullReplay(actorID, log, loader);
    var assisted := AssistedReplay(actorID, log, loader);
    if full.Failure? && full.error != CreateNotFound then Failure(full.error)
    else if assisted.Failure? then Failure(assisted.error)
    else
      var counted := if full.Success? then full.value.fullCommands else 0;
      var state := assisted.value.state;
      var reported :=
        if state.snapshotCount > 0 && counted <= assisted.value.snapshotCommands then state.count else counted;
      Success(ReplayResult(state, reported, assisted.value.snapshotCommands))
  }

  method ReplayRawEach(actorID: string, log: seq<Event>, loader: Loader)
    returns (r: Result<ReplayResult, ReplayError>)
    ensures r == RawReplay(actorID, log, loader)
  {
    hide FullReplay, AssistedReplay;
    var full := ReplayEach(actorID, log, loader, false);
    var fullReplayCommands := 0;
    if full.Failure? {
      if full.error != CreateNotFound {
        return Failure(full.error);
      }
    } else {
      fullReplayCommands := full.value.fullCommands;
    }
    var withSnapshot := ReplayEach(actorID, log, loader, true);
    if withSnapshot.Failure? {
      return Failure(withSnapshot.error);
    }
    if withSnapshot.value.state.snapshotCount > 0 && fullReplayCommands <= withSnapshot.value.snapshotCommands {
      fullReplayCommands := withSnapshot.value.state.count;
    }
    return Success(ReplayResult(withSnapshot.value.state, fullReplayCommands, withSnapshot.value.snapshotCommands));
  }

  // ---- Replay of what the control plane writes ------------------------------------

  lemma {:induction false} NoReplayErrors(actorID: string, store: Store, log: seq<Event>, b: nat, mode: Mode)
    requires actorID != "" && WellOrdered(actorID, store, log) && b <= |log|
    ensures FirstScanError(Some(store), log[b..]).None?
    ensures FirstStepError(Some(store), mode, log[b..]).None?
    decreases |log|
  {
    hide WellOrdered, Admissible, FullState;
    if b < |log| {
      var n := |log| - 1;
      RecordAt(actorID, store, log, n);
      NoReplayErrors(actorID, store, log[..n], b, mode);
      assert log[b..][..n - b] == log[..n][b..];
      NoErrorAt(store, FullState(actorID, log[..n]), n == 0, log[n], mode);
    }
  }

  lemma NoErrorAt(store: Store, s: State, first: bool, e: Event, mode: Mode)
    requires Admissible(store, s, first, e)
    ensures ScanError(Some(store), e).None? && StepError(Some(store), mode, e).None?
  {}

  lemma {:induction false} FullKeepsActor(actorID: string, log: seq<Event>)
    requires actorID != "" && log != [] && (log[0].Created? || log[0].Snapshot?)
    ensures FullState(actorID, log).actorID == actorID
  {
    var n := |log| - 1;
    if n > 0 {
      FullKeepsActor(actorID, log[..n]);
    } else {
      assert log[..0] == [];
    }
  }

  /** Where the latest snapshot stands in full replay. */
  lemma SnapshotPlace(actorID: string, store: Store, log: seq<Event>, b: nat)
    requires actorID != "" && WellOrdered(actorID, store, log) && b < |log|
    requires b == 0 || log[b].Snapshot?
    ensures var i, live := LastSnapshot(log), FullState(actorID, log);
            && FullState(actorID, log[..i + 1]).count == live.snapshotCount
            && (i < 0 <==> live.snapshotCount == 0) && (b > 0 ==> i >= b)
            && Hydrate(actorID, store, log[b..]).snapshotCount == live.snapshotCount
            && Commands(Assisted(live.snapshotCount), log[b..]) == Commands(Full, log[i + 1..])
  {
    hide WellOrdered, Step, Admissible, FullState, Fold, Marks, Commands, Hydrate;
    var i := LastSnapshot(log);
    assert log[0..] == log;
    if i < 0 {
      NothingYet(actorID, log);
      HydrateNothing(actorID, store, log);
      AssistedWithoutSnapshots(actorID, store, log);
    } else {
      ReadableFrom(actorID, store, log, b);
      RecordAt(actorID, store, log, i);
    }
  }

  /** What assisted replay makes of a readable log, untrimmed or trimmed. */
  lemma AssistedCommands(actorID: string, store: Store, log: seq<Event>, b: nat)
    requires actorID != "" && WellOrdered(actorID, store, log) && b < |log|
    requires b == 0 || log[b].Snapshot?
    ensures var live, i := FullState(actorID, log), LastSnapshot(log) + 1;
            var late := Commands(Full, log[i..]);
            && live.snapshotCount + late <= live.count
            && (live.snapshotCount + late == live.count <==> Unskipped(actorID, log, i, |log|))
            && AssistedState(actorID, store, log[b..]).actorID == actorID
            && AssistedState(actorID, store, log[b..]).count == live.count
            && AssistedState(actorID, store, log[b..]).snapshotCount == live.snapshotCount
  {
    hide WellOrdered, Step, Admissible, FullState, Fold, Marks, Commands, Hydrate;
    var i := LastSnapshot(log) + 1;
    FullInvariant(actorID, store, log);
    AssistedEqualsFull(actorID, store, log);
    SnapshotPlace(actorID, store, log, b);
    CommandsBetween(actorID, store, log, i, |log|);
    assert log[0..] == log && log[..|log|] == log && log[i..|log|] == log[i..];
    if b > 0 {
      TrimmedReplay(actorID, store, log, b);
    }
  }

  /** How far full replay of the readable log counts, against what follows its latest
      snapshot. */
  lemma FullCommands(actorID: string, store: Store, log: seq<Event>, b: nat)
    requires actorID != "" && WellOrdered(actorID, store, log) && b < |log|
    requires b == 0 || log[b].Snapshot?
    ensures var live, i := FullState(actorID, log), LastSnapshot(log) + 1;
            var behind := if b == 0 then 0 else log[b].snapshotCount;
            var counted, late := Commands(Full, log[b..]), Commands(Full, log[i..]);
            && behind + counted <= live.count && (b > 0 ==> 1 <= behind <= live.snapshotCount)
            && (b == 0 ==> (counted == live.count <==> Unskipped(actorID, log, 0, |log|)))
            && (live.snapshotCount > 0 ==> late <= counted && (counted == late <==> behind == live.snapshotCount))
            && FullState(actorID, log[b..]).actorID == actorID
  {
    hide WellOrdered, Step, Admissible, FullState, Fold, Marks, Commands, Hydrate;
    var i := LastSnapshot(log) + 1;
    RecordAt(actorID, store, log, b);
    SnapshotPlace(actorID, store, log, b);
    CommandsBetween(actorID, store, log, b, |log|);
    assert log[b..|log|] == log[b..] && log[..|log|] == log;
    FullKeepsActor(actorID, log[b..]);
    NothingYet(actorID, log);
    if i > 0 {
      CommandsNone(actorID, store, log, b, i);
      Monotone(actorID, store, log, b, i);
      assert log[b..] == log[b..i] + log[i..];
      CommandsAppend(Full, log[b..i], log[i..]);
    }
  }

  /** Replay of a readable log: the whole log, or its records from snapshot `b` on. The
      snapshot counter is the distance to the latest snapshot exactly when no number was
      skipped since. The full counter is the command count, on a whole log, exactly when none
      was ever skipped, and on a trimmed one exactly when it was trimmed at its latest
      snapshot. */
  lemma ReplayCounters(actorID: string, store: Store, log: seq<Event>, b: nat)
    requires actorID != "" && WellOrdered(actorID, store, log) && b < |log|
    requires b == 0 || log[b].Snapshot?
    ensures
      var live := FullState(actorID, log);
      var r := RawReplay(actorID, log[b..], Some(store));
      && r.Success?
      && r.value.state == AssistedState(actorID, store, log[b..])
      && r.value.snapshotCommands <= live.count - live.snapshotCount
      && (r.value.snapshotCommands == live.count - live.snapshotCount
          <==> Unskipped(actorID, log, LastSnapshot(log) + 1, |log|))
      && (r.value.fullCommands == live.count <==>
            if b == 0 then Unskipped(actorID, log, 0, |log|) else log[b].snapshotCount == live.snapshotCount)
  {
    hide WellOrdered, Step, FullState, AssistedState, Fold, Commands, Hydrate, FirstScanError, FirstStepError,
      Unskipped;
    NoReplayErrors(actorID, store, log, b, Full);
    NoReplayErrors(actorID, store, log, b, Assisted(FullState(actorID, log).snapshotCount));
    SnapshotPlace(actorID, store, log, b);
    AssistedCommands(actorID, store, log, b);
    FullCommands(actorID, store, log, b);
  }

  // ---- Superseded records in front ------------------------------------------------------------

  lemma SupersededReads(store: Store, f: State, n: nat, e: Event, mode: Mode)
    requires Superseded(store, f, n, e)
    ensures ScanError(Some(store), e).None? && StepError(Some(store), mode, e).None?
  {}

  lemma {:induction false} EarlyReads(store: Store, f: State, n: nat, early: seq<Event>, mode: Mode)
    requires AllSuperseded(store, f, n, early)
    ensures FirstScanError(Some(store), early).None? && FirstStepError(Some(store), mode, early).None?
  {
    hide Superseded;
    if early != [] {
      EarlyReads(store, f, n, early[..|early| - 1], mode);
      SupersededReads(store, f, n, early[|early| - 1], mode);
    }
  }

  lemma {:induction false} ReadsAppend(loader: Loader, mode: Mode, a: seq<Event>, b: seq<Event>)
    requires FirstScanError(loader, a).None? && FirstStepError(loader, mode, a).None?
    requires FirstScanError(loader, b).None? && FirstStepError(loader, mode, b).None?
    ensures FirstScanError(loader, a + b).None? && FirstStepError(loader, mode, a + b).None?
    decreases |b|
  {
    if b == [] {
      assert a + b == a;
    } else {
      ReadsAppend(loader, mode, a, b[..|b| - 1]);
      assert (a + b)[..|a + b| - 1] == a + b[..|b| - 1];
    }
  }

  /** Replay reads them without an error, and they change the origin and the submission
      counter of the replayed state only. */
  lemma EarlierRead(actorID: string, store: Store, early: seq<Event>, log: seq<Event>, b: nat)
    requires actorID != "" && WellOrdered(actorID, store, log) && 0 < b < |log| && log[b].Snapshot?
    requires AllSuperseded(store, FullState(actorID, log), log[b].snapshotCount, early)
    ensures
      var r := RawReplay(actorID, early + log[b..], Some(store));
      var rest := RawReplay(actorID, log[b..], Some(store));
      && r.Success? && rest.Success?
      && Alike(r.value.state, rest.value.state, Marks(early))
      && r.value.snapshotCommands == rest.value.snapshotCommands
  {
    hide WellOrdered, Step, FullState, AssistedState, Fold, Commands, Hydrate, FirstScanError, FirstStepError,
      Superseded, Unskipped;
    var f, n := FullState(actorID, log), log[b].snapshotCount;
    var mode := Assisted(f.snapshotCount);
    ReplayCounters(actorID, store, log, b);
    SnapshotPlace(actorID, store, log, b);
    AssistedCommands(actorID, store, log, b);
    EarlierReplay(actorID, store, early, log, b);
    NoReplayErrors(actorID, store, log, b, Full);
    NoReplayErrors(actorID, store, log, b, mode);
    EarlyReads(store, f, n, early, Full);
    EarlyReads(store, f, n, early, mode);
    ReadsAppend(Some(store), Full, early, log[b..]);
    ReadsAppend(Some(store), mode, early, log[b..]);
  }
}
