/** The actor event log and the three folds that rebuild actor state from it
    (internal/actor/model.go): full replay, snapshot-assisted replay and replay
    of a tail on top of a given state. */
module ActorLog {
  import opened Basics

  datatype ActorStatus = Unspecified | Active

  datatype State = State(
    actorID: string, className: string, classSource: string, initArgs: Bytes,
    status: ActorStatus, owner: string, epoch: nat,
    count: nat, submitted: nat,
    every: nat, snapshotRef: string, snapshotCount: nat, stateJson: Bytes,
    idemKey: string, idemFingerprint: string, createdAt: int, updatedAt: int)

  const NONE: State :=
    State("", "", "", EMPTY, Unspecified, "", 0, 0, 0, 0, "", 0, EMPTY, "", "", 0, 0)

  /** One decoded record. `at` is the payload timestamp, or the record's own when
      the payload has none. */
  datatype Event =
    | Created(className: string, classSource: string, initArgs: Bytes, every: nat,
              idemKey: string, idemFingerprint: string, at: int)
    | Granted(worker: string, epoch: nat, at: int)
    | Submitted(commandSeq: nat, at: int)
    | Applied(commandSeq: nat, commandCount: nat, worker: string, epoch: nat, stateJson: Bytes, at: int)
    | Failed(commandSeq: nat, commandCount: nat, worker: string, epoch: nat, at: int)
    | Snapshot(className: string, classSource: string, initArgs: Bytes, worker: string, epoch: nat,
               ref: string, every: nat, snapshotCount: nat, at: int)
    | Unknown
    | Undecodable(inSnapshot: bool)
  {
    predicate IsCommand() { Applied? || Failed? }
  }

  /** The object store behind the snapshot loader. */
  type Store = map<string, Bytes>

  function Load(store: Store, ref: string): Bytes {
    if ref in store then store[ref] else EMPTY
  }

  /** How a fold treats commands and snapshot records: full replay ignores stored
      state; assisted replay skips commands up to `covered`; a tail skips nothing. */
  datatype Mode = Full | Assisted(covered: nat) | Tail
  {
    predicate Skips(e: Event)
      requires e.IsCommand()
    {
      Assisted? && e.commandCount <= covered
    }

    predicate Loads() { !Full? }
  }

  function NewState(actorID: string, e: Event): State
    requires e.Created?
  {
    NONE.(actorID := actorID, className := e.className, classSource := e.classSource,
          initArgs := e.initArgs, status := Active,
          every := if e.every == 0 then 25 else e.every,
          createdAt := e.at, updatedAt := e.at)
  }

  function CreatedStep(actorID: string, s: State, e: Event): State
    requires e.Created?
  {
    var t := if s.actorID == "" then NewState(actorID, e)
             else s.(actorID := actorID, className := e.className, classSource := e.classSource,
                     initArgs := e.initArgs, status := Active, every := e.every,
                     createdAt := if s.createdAt == 0 then e.at else s.createdAt);
    t.(idemKey := e.idemKey, idemFingerprint := e.idemFingerprint)
  }

  function CommandStep(mode: Mode, s: State, e: Event): State
    requires e.IsCommand()
  {
    if mode.Skips(e) then s
    else
      var count := if e.commandSeq > 0 then e.commandSeq else e.commandCount;
      s.(count := count,
         submitted := Max(s.submitted, count),
         owner := if e.worker != "" then e.worker else s.owner,
         epoch := if e.epoch != 0 then e.epoch else s.epoch,
         stateJson := if e.Applied? then NormalizeJSON(e.stateJson) else s.stateJson,
         updatedAt := e.at)
  }

  function SnapshotStep(actorID: string, store: Store, mode: Mode, s: State, e: Event): State
    requires e.Snapshot?
  {
    s.(actorID := actorID,
       className := if e.className != "" then e.className else s.className,
       classSource := if e.classSource != "" then e.classSource else s.classSource,
       initArgs := if e.initArgs != EMPTY then e.initArgs else s.initArgs,
       every := if e.every > 0 then e.every else s.every,
       status := Active,
       owner := if e.worker != "" then e.worker else s.owner,
       epoch := if e.epoch != 0 then e.epoch else s.epoch,
       snapshotRef := e.ref, snapshotCount := e.snapshotCount, updatedAt := e.at,
       stateJson := if mode.Loads() && e.ref != "" then NormalizeJSON(Load(store, e.ref)) else s.stateJson)
  }

  function Step(actorID: string, store: Store, mode: Mode, s: State, e: Event): State {
    match e
    case Created(_, _, _, _, _, _, _) => CreatedStep(actorID, s, e)
    case Granted(worker, epoch, at) => s.(owner := worker, epoch := epoch, updatedAt := at)
    case Submitted(n, at) => s.(submitted := Max(s.submitted, n), updatedAt := at)
    case Applied(_, _, _, _, _, _) => CommandStep(mode, s, e)
    case Failed(_, _, _, _, _) => CommandStep(mode, s, e)
    case Snapshot(_, _, _, _, _, _, _, _, _) => SnapshotStep(actorID, store, mode, s, e)
    case Unknown => s
    case Undecodable(_) => s
  }

  function Fold(actorID: string, store: Store, mode: Mode, s: State, log: seq<Event>): State {
    if log == [] then s
    else
      var n := |log| - 1;
      Step(actorID, store, mode, Fold(actorID, store, mode, s, log[..n]), log[n])
  }

  /** The first pass of assisted replay: the latest snapshot record wins. */
  function Hydrate(actorID: string, store: Store, log: seq<Event>): State {
    if log == [] then NONE
    else
      var n := |log| - 1;
      var s := Hydrate(actorID, store, log[..n]);
      var e := log[n];
      if e.Snapshot? && e.ref != "" then
        s.(actorID := actorID, className := e.className, classSource := e.classSource,
           initArgs := e.initArgs, status := Active, owner := e.worker, epoch := e.epoch,
           stateJson := NormalizeJSON(Load(store, e.ref)), snapshotRef := e.ref,
           snapshotCount := e.snapshotCount, count := e.snapshotCount, submitted := e.snapshotCount,
           every := e.every, updatedAt := e.at)
      else s
  }

  function FullState(actorID: string, log: seq<Event>): State {
    Fold(actorID, map[], Full, NONE, log)
  }

  function AssistedState(actorID: string, store: Store, log: seq<Event>): State {
    var h := Hydrate(actorID, store, log);
    Fold(actorID, store, Assisted(h.snapshotCount), h, log)
  }

  function TailState(actorID: string, store: Store, initial: State, log: seq<Event>): State {
    var s := if initial.actorID == "" then initial.(actorID := actorID) else initial;
    Fold(actorID, store, Tail, s, log)
  }

  /** Commands a fold applies. */
  function Commands(mode: Mode, log: seq<Event>): nat {
    if log == [] then 0
    else
      var n := |log| - 1;
      Commands(mode, log[..n]) + if log[n].IsCommand() && !mode.Skips(log[n]) then 1 else 0
  }

  /** The durable fields metadata and replay must agree on. */
  predicate Consistent(a: State, b: State) {
    && a.actorID == b.actorID && a.className == b.className && a.status == b.status
    && a.owner == b.owner && a.epoch == b.epoch
    && a.count == b.count && a.submitted == b.submitted
    && a.snapshotRef == b.snapshotRef && a.snapshotCount == b.snapshotCount
    && NormalizeJSON(a.stateJson) == NormalizeJSON(b.stateJson)
  }

  /** What the live control plane may append to a log whose full replay is `s`. */
  predicate Admissible(store: Store, s: State, first: bool, e: Event) {
    match e
    case Created(className, classSource, initArgs, every, _, _, _) =>
      first && className != "" && classSource != "" && every > 0
    case Granted(worker, epoch, _) => !first && worker != "" && epoch > s.epoch
    case Submitted(_, _) => !first
    case Applied(n, count, worker, epoch, _, _) =>
      !first && n == count > s.count && worker == s.owner != "" && epoch == s.epoch
    case Failed(n, count, worker, epoch, _) =>
      !first && n == count > s.count && worker == s.owner != "" && epoch == s.epoch
    case Snapshot(className, classSource, initArgs, worker, epoch, ref, every, count, _) =>
      && !first && className == s.className && classSource == s.classSource && initArgs == s.initArgs
      && every == s.every && worker == s.owner != "" && epoch == s.epoch
      && count == s.count >= 1 && ref != "" && ref in store && NormalizeJSON(store[ref]) == s.stateJson
    case Unknown => !first
    case Undecodable(_) => false
  }

  /** A log as the live control plane writes it: creation first, grants raise the epoch,
      commands take a higher sequence number under the current owner - the next one, unless a
      repeated call whose record the log dropped took that - and `Snapshot(n)` follows command
      `n` and stores the state there. */
  predicate WellOrdered(actorID: string, store: Store, log: seq<Event>) {
    log == [] ||
    var n := |log| - 1;
    && WellOrdered(actorID, store, log[..n])
    && Admissible(store, FullState(actorID, log[..n]), n == 0, log[n])
  }

  // ---- Folds over concatenations and prefixes -------------------------------

  lemma {:induction false} FoldAppend(actorID: string, store: Store, mode: Mode, s: State, a: seq<Event>, b: seq<Event>)
    ensures Fold(actorID, store, mode, s, a + b) == Fold(actorID, store, mode, Fold(actorID, store, mode, s, a), b)
    decreases |b|
  {
    hide Step;
    if b == [] {
      assert a + b == a;
    } else {
      var n := |b| - 1;
      FoldAppend(actorID, store, mode, s, a, b[..n]);
      assert (a + b)[..|a + b| - 1] == a + b[..n];
    }
  }

  lemma {:induction false} WellOrderedPrefix(actorID: string, store: Store, log: seq<Event>, j: nat)
    requires WellOrdered(actorID, store, log) && j <= |log|
    ensures WellOrdered(actorID, store, log[..j])
    decreases |log|
  {
    hide FullState, Admissible;
    if j == |log| {
      assert log[..j] == log;
    } else {
      var n := |log| - 1;
      WellOrderedPrefix(actorID, store, log[..n], j);
      assert log[..n][..j] == log[..j];
    }
  }

  lemma WellOrderedAt(actorID: string, store: Store, log: seq<Event>, j: nat)
    requires WellOrdered(actorID, store, log) && j < |log|
    ensures WellOrdered(actorID, store, log[..j])
    ensures Admissible(store, FullState(actorID, log[..j]), j == 0, log[j])
    ensures FullState(actorID, log[..j + 1]) == Step(actorID, map[], Full, FullState(actorID, log[..j]), log[j])
  {
    hide Step, Admissible;
    WellOrderedPrefix(actorID, store, log, j);
    WellOrderedPrefix(actorID, store, log, j + 1);
    assert log[..j + 1][..j] == log[..j];
  }

  /** The object store only grows, so old snapshot references keep loading. */
  lemma {:induction false} WellOrderedStore(actorID: string, store: Store, bigger: Store, log: seq<Event>)
    requires WellOrdered(actorID, store, log)
    requires forall ref :: ref in store ==> ref in bigger && bigger[ref] == store[ref]
    ensures WellOrdered(actorID, bigger, log)
  {
    if log != [] {
      WellOrderedStore(actorID, store, bigger, log[..|log| - 1]);
    }
  }

  /** Appending one admissible record. */
  lemma Extend(actorID: string, store: Store, log: seq<Event>, s: State, e: Event)
    requires WellOrdered(actorID, store, log) && FullState(actorID, log) == s
    requires Admissible(store, s, log == [], e)
    ensures WellOrdered(actorID, store, log + [e])
    ensures FullState(actorID, log + [e]) == Step(actorID, map[], Full, s, e)
  {
    hide Step, Admissible;
    assert (log + [e])[..|log|] == log;
  }

  lemma FirstRecord(actorID: string, store: Store, e: Event, t: State)
    requires Admissible(store, NONE, true, e) && t == Step(actorID, map[], Full, NONE, e)
    ensures WellOrdered(actorID, store, [e]) && FullState(actorID, [e]) == t
  {
    Extend(actorID, store, [], NONE, e);
    assert [] + [e] == [e];
  }

  lemma NextRecord(actorID: string, store: Store, log: seq<Event>, j: nat, s: State, t: State)
    requires 0 < j < |log| && WellOrdered(actorID, store, log[..j]) && FullState(actorID, log[..j]) == s
    requires Admissible(store, s, false, log[j]) && Step(actorID, map[], Full, s, log[j]) == t
    ensures WellOrdered(actorID, store, log[..j + 1]) && FullState(actorID, log[..j + 1]) == t
  {
    Extend(actorID, store, log[..j], s, log[j]);
    assert log[..j] + [log[j]] == log[..j + 1];
  }

  // ---- What every well-ordered log keeps -------------------------------------

  /** Fields that never change after creation. */
  predicate SameFrame(a: State, b: State) {
    && a.actorID == b.actorID && a.className == b.className && a.classSource == b.classSource
    && a.initArgs == b.initArgs && a.status == b.status && a.every == b.every
  }

  /** Who asked for the actor, and when. */
  predicate SameOrigin(a: State, b: State) {
    a.idemKey == b.idemKey && a.idemFingerprint == b.idemFingerprint && a.createdAt == b.createdAt
  }

  /** Everything but origin and the submission counter. */
  predicate SameCore(a: State, b: State) {
    && SameFrame(a, b) && a.owner == b.owner && a.epoch == b.epoch && a.count == b.count
    && a.snapshotRef == b.snapshotRef && a.snapshotCount == b.snapshotCount
    && a.stateJson == b.stateJson && a.updatedAt == b.updatedAt
  }

  predicate StateInvariant(actorID: string, s: State) {
    && s.actorID == actorID && s.status == Active
    && s.className != "" && s.classSource != "" && s.every > 0
    && (s.owner != "" <==> s.epoch >= 1)
    && s.count <= s.submitted
    && s.snapshotCount <= s.count
    && (s.snapshotRef != "" <==> s.snapshotCount >= 1)
    && NormalizeJSON(s.stateJson) == s.stateJson
  }

  /** The highest command number a segment mentions. */
  function Marks(log: seq<Event>): nat {
    if log == [] then 0 else MarksWith(Marks(log[..|log| - 1]), log[|log| - 1])
  }

  function MarksWith(marks: nat, e: Event): nat {
    if e.Submitted? || e.IsCommand() then Max(marks, e.commandSeq) else marks
  }

  /** How one record moves the counters of full replay. */
  predicate Delta(s: State, t: State, e: Event) {
    && t.count == (if e.IsCommand() then e.commandSeq else s.count) >= s.count
    && (e.IsCommand() ==> e.commandSeq == e.commandCount > s.count && e.epoch == s.epoch >= 1)
    && s.epoch <= t.epoch
    && t.submitted == MarksWith(s.submitted, e) >= s.submitted
    && t.snapshotCount == (if e.Snapshot? then e.snapshotCount else s.snapshotCount)
    && (e.Snapshot? ==> e.snapshotCount == s.count >= 1 && e.ref != "")
  }

  lemma StepDelta(actorID: string, store: Store, s: State, e: Event)
    requires StateInvariant(actorID, s) && Admissible(store, s, false, e)
    ensures var t := Step(actorID, map[], Full, s, e);
            StateInvariant(actorID, t) && Delta(s, t, e) && SameFrame(s, t) && SameOrigin(s, t)
  {}

  lemma StepFirst(actorID: string, store: Store, e: Event)
    requires actorID != "" && Admissible(store, NONE, true, e)
    ensures e.Created?
    ensures var t := Step(actorID, map[], Full, NONE, e);
            StateInvariant(actorID, t) && Delta(NONE, t, e)
  {}

  /** Everything about record `j` of a well-ordered log. */
  lemma RecordAt(actorID: string, store: Store, log: seq<Event>, j: nat)
    requires actorID != "" && WellOrdered(actorID, store, log) && j < |log|
    ensures WellOrdered(actorID, store, log[..j])
    ensures Admissible(store, FullState(actorID, log[..j]), j == 0, log[j])
    ensures FullState(actorID, log[..j + 1]) == Step(actorID, map[], Full, FullState(actorID, log[..j]), log[j])
    ensures StateInvariant(actorID, FullState(actorID, log[..j + 1]))
    ensures Delta(FullState(actorID, log[..j]), FullState(actorID, log[..j + 1]), log[j])
    ensures j > 0 ==> StateInvariant(actorID, FullState(actorID, log[..j]))
    ensures j > 0 ==> SameFrame(FullState(actorID, log[..j]), FullState(actorID, log[..j + 1]))
    ensures j > 0 ==> SameOrigin(FullState(actorID, log[..j]), FullState(actorID, log[..j + 1]))
    ensures j == 0 <==> log[j].Created?
    decreases j
  {
    hide Step, StateInvariant, Delta, SameFrame, SameOrigin;
    WellOrderedAt(actorID, store, log, j);
    if j > 0 {
      RecordAt(actorID, store, log, j - 1);
      StepDelta(actorID, store, FullState(actorID, log[..j]), log[j]);
    } else {
      assert FullState(actorID, log[..0]) == NONE;
      StepFirst(actorID, store, log[0]);
    }
  }

  lemma FullInvariant(actorID: string, store: Store, log: seq<Event>)
    requires actorID != "" && WellOrdered(actorID, store, log) && log != []
    ensures StateInvariant(actorID, FullState(actorID, log))
    ensures log[0].Created?
  {
    hide Step, Admissible;
    RecordAt(actorID, store, log, 0);
    RecordAt(actorID, store, log, |log| - 1);
    assert log[..|log| - 1 + 1] == log;
  }

  lemma {:induction false} Monotone(actorID: string, store: Store, log: seq<Event>, i: nat, j: nat)
    requires actorID != "" && WellOrdered(actorID, store, log) && i <= j <= |log|
    ensures FullState(actorID, log[..i]).epoch <= FullState(actorID, log[..j]).epoch
    ensures FullState(actorID, log[..i]).count <= FullState(actorID, log[..j]).count
    ensures FullState(actorID, log[..i]).submitted <= FullState(actorID, log[..j]).submitted
    decreases j
  {
    hide WellOrdered, Step, StateInvariant, Admissible, FullState;
    if i < j {
      Monotone(actorID, store, log, i, j - 1);
      RecordAt(actorID, store, log, j - 1);
    }
  }

  /** Every command from `b` on takes the very next number. */
  predicate Unskipped(actorID: string, log: seq<Event>, b: nat, j: nat)
    requires j <= |log|
  {
    forall k :: b <= k < j && log[k].IsCommand() ==> log[k].commandSeq == FullState(actorID, log[..k]).count + 1
  }

  /** Command epochs never fall and sequence numbers strictly rise. */
  lemma CommandsRise(actorID: string, store: Store, log: seq<Event>, i: nat, j: nat)
    requires actorID != "" && WellOrdered(actorID, store, log) && i < j < |log|
    requires log[i].IsCommand() && log[j].IsCommand()
    ensures log[i].epoch <= log[j].epoch && log[i].commandSeq < log[j].commandSeq
  {
    hide WellOrdered, Step, StateInvariant, Admissible, FullState;
    RecordAt(actorID, store, log, i);
    RecordAt(actorID, store, log, j);
    Monotone(actorID, store, log, i + 1, j);
  }

  /** Class, arguments, cadence and origin never change after creation. */
  lemma {:induction false} FrameStable(actorID: string, store: Store, log: seq<Event>, i: nat, j: nat)
    requires actorID != "" && WellOrdered(actorID, store, log) && 1 <= i <= j <= |log|
    ensures SameFrame(FullState(actorID, log[..i]), FullState(actorID, log[..j]))
    ensures SameOrigin(FullState(actorID, log[..i]), FullState(actorID, log[..j]))
    decreases j
  {
    hide WellOrdered, Step, StateInvariant, Admissible, FullState, Delta;
    if i < j {
      FrameStable(actorID, store, log, i, j - 1);
      RecordAt(actorID, store, log, j - 1);
    }
  }

  // ---- Slices ---------------------------------------------------------------------

  /** One more record of a slice. */
  lemma FoldSlice(actorID: string, store: Store, mode: Mode, s: State, log: seq<Event>, b: nat, j: nat)
    requires b <= j < |log|
    ensures Fold(actorID, store, mode, s, log[b..j + 1])
            == Step(actorID, store, mode, Fold(actorID, store, mode, s, log[b..j]), log[j])
    ensures Marks(log[b..j + 1]) == MarksWith(Marks(log[b..j]), log[j])
    ensures Commands(mode, log[b..j + 1])
            == Commands(mode, log[b..j]) + if log[j].IsCommand() && !mode.Skips(log[j]) then 1 else 0
  {
    hide Step, MarksWith;
    var slice := log[b..j + 1];
    assert slice[..|slice| - 1] == log[b..j];
  }

  lemma EmptySlice(actorID: string, store: Store, mode: Mode, s: State, log: seq<Event>, b: nat)
    requires b <= |log|
    ensures Fold(actorID, store, mode, s, log[b..b]) == s
    ensures Marks(log[b..b]) == 0 && Commands(mode, log[b..b]) == 0
  {}

  lemma {:induction false} MarksAppend(a: seq<Event>, b: seq<Event>)
    ensures Marks(a + b) == Max(Marks(a), Marks(b))
    decreases |b|
  {
    if b == [] {
      assert a + b == a;
    } else {
      MarksAppend(a, b[..|b| - 1]);
      assert (a + b)[..|a + b| - 1] == a + b[..|b| - 1];
    }
  }

  lemma {:induction false} MarksFull(actorID: string, store: Store, log: seq<Event>)
    requires actorID != "" && WellOrdered(actorID, store, log)
    ensures FullState(actorID, log).submitted == Marks(log)
  {
    hide WellOrdered, Step, StateInvariant, Admissible, MarksWith;
    if log != [] {
      RecordAt(actorID, store, log, |log| - 1);
      MarksFull(actorID, store, log[..|log| - 1]);
      assert log[..|log| - 1 + 1] == log;
    }
  }

  /** The count moves on by at least the commands read, and by exactly those where no number
      was skipped. */
  lemma {:induction false} CommandsBetween(actorID: string, store: Store, log: seq<Event>, b: nat, j: nat)
    requires actorID != "" && WellOrdered(actorID, store, log) && b <= j <= |log|
    ensures FullState(actorID, log[..b]).count + Commands(Full, log[b..j]) <= FullState(actorID, log[..j]).count
    ensures FullState(actorID, log[..b]).count + Commands(Full, log[b..j]) == FullState(actorID, log[..j]).count
            <==> Unskipped(actorID, log, b, j)
    decreases j
  {
    hide WellOrdered, Step, StateInvariant, Admissible, FullState, MarksWith, Fold, Commands;
    if b < j {
      CommandsBetween(actorID, store, log, b, j - 1);
      FoldSlice(actorID, store, Full, NONE, log, b, j - 1);
      RecordAt(actorID, store, log, j - 1);
      assert Unskipped(actorID, log, b, j) ==> Unskipped(actorID, log, b, j - 1);
    } else {
      EmptySlice(actorID, map[], Full, NONE, log, b);
    }
  }

  /** A stretch without commands is one over which the count stands still. */
  lemma {:induction false} CommandsNone(actorID: string, store: Store, log: seq<Event>, b: nat, j: nat)
    requires actorID != "" && WellOrdered(actorID, store, log) && b <= j <= |log|
    ensures Commands(Full, log[b..j]) == 0 <==> FullState(actorID, log[..b]).count == FullState(actorID, log[..j]).count
    decreases j
  {
    hide WellOrdered, Step, Admissible, StateInvariant, FullState, Fold, Marks, MarksWith, Commands;
    if b < j {
      CommandsNone(actorID, store, log, b, j - 1);
      CommandsBetween(actorID, store, log, b, j - 1);
      FoldSlice(actorID, store, Full, NONE, log, b, j - 1);
      RecordAt(actorID, store, log, j - 1);
    } else {
      EmptySlice(actorID, store, Full, NONE, log, b);
    }
  }

  lemma NothingYet(actorID: string, log: seq<Event>)
    ensures FullState(actorID, log[..0]) == NONE
  {}

  /** A command's number is above those of all commands before it, under the owner's epoch;
      the numbers are 1, 2, 3, ... in log order exactly as long as none was skipped. */
  lemma CommandNumbering(actorID: string, store: Store, log: seq<Event>, i: nat)
    requires actorID != "" && WellOrdered(actorID, store, log) && i < |log| && log[i].IsCommand()
    ensures log[i].commandSeq == log[i].commandCount >= Commands(Full, log[..i]) + 1
    ensures log[i].commandSeq == Commands(Full, log[..i]) + 1 <==> Unskipped(actorID, log, 0, i + 1)
    ensures log[i].epoch == FullState(actorID, log[..i]).epoch >= 1
  {
    hide WellOrdered, Step, StateInvariant, Admissible, FullState, Commands, Fold;
    RecordAt(actorID, store, log, i);
    NothingYet(actorID, log);
    CommandsBetween(actorID, store, log, 0, i + 1);
    FoldSlice(actorID, store, Full, NONE, log, 0, i);
    assert log[0..i] == log[..i];
  }
}
