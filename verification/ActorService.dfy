/** The live actor machine (internal/control/actor.go): one actor's stream, its
    metadata row and its mailbox. Every handler appends first and updates metadata
    afterwards; appends and the later steps may fail. */
module ActorService {
  import opened Basics
  import opened ActorLog
  import opened ActorSnapshot
  import opened ActorReplay

  datatype Reason =
    | ClassNameRequired | ClassSourceRequired | NoActiveWorker | Stale | OutOfOrder
    | AppendFailed | PutFailed | Backpressure

  datatype Outcome = Accepted | Rejected(reason: Reason)

  /** What a worker reports for one command. */
  datatype Completion = Completion(worker: string, epoch: nat, failed: bool, stateJson: Bytes, at: int)

  /** Metadata row `m` against full replay `f`: equal but for timestamps, creation
      identity and the submission counter. */
  predicate Mirrors(m: State, f: State) {
    && SameFrame(m, f) && m.owner == f.owner && m.epoch == f.epoch && m.count == f.count
    && m.snapshotRef == f.snapshotRef && m.snapshotCount == f.snapshotCount && m.stateJson == f.stateJson
  }

  /** How far a row ran ahead of its log: calls that were repeated after a restart and whose
      second record the log dropped, and whether one of them left a state of its own. */
  datatype Drift = Drift(ahead: nat, stale: bool)

  const NO_DRIFT: Drift := Drift(0, false)

  /** A row that mirrors replay but for its drift. */
  predicate Follows(m: State, f: State, d: Drift) {
    && SameFrame(m, f) && m.owner == f.owner && m.epoch == f.epoch && m.count == f.count + d.ahead
    && m.snapshotRef == f.snapshotRef && m.snapshotCount == f.snapshotCount
    && (!d.stale ==> m.stateJson == f.stateJson) && NormalizeJSON(m.stateJson) == m.stateJson
  }

  /** A history and the metadata row kept beside it. The row may be `lost` submissions behind:
      refused after their append, or trimmed before a restart. */
  ghost predicate Sound(actorID: string, store: Store, history: seq<Event>, m: State, lost: int, d: Drift) {
    var f := FullState(actorID, history);
    && actorID != "" && history != [] && WellOrdered(actorID, store, history)
    && Follows(m, f, d) && m.submitted + lost == f.submitted
  }

  lemma SoundFields(actorID: string, store: Store, history: seq<Event>, m: State, lost: int, d: Drift)
    requires Sound(actorID, store, history, m, lost, d)
    ensures StateInvariant(actorID, FullState(actorID, history))
      && FullState(actorID, history).submitted == m.submitted + lost
    ensures m.owner != "" <==> m.epoch >= 1
    ensures m.every > 0 && m.status == Active && m.actorID == actorID && m.className != "" && m.classSource != ""
    ensures NormalizeJSON(m.stateJson) == m.stateJson && SameFrame(m, FullState(actorID, history))
  {
    hide WellOrdered, FullState;
    FullInvariant(actorID, store, history);
  }

  /** The highest number a log mentions after one more record. */
  function Marked(logged: int, e: Event): int {
    if (e.Submitted? || e.IsCommand()) && e.commandSeq > logged then e.commandSeq else logged
  }

  /** A command record takes the row's count to the log, and an applied one its state. */
  function Settling(d: Drift, e: Event): Drift {
    if e.IsCommand() then Drift(0, d.stale && e.Failed?) else d
  }

  /** A repeated call moves the row on its own. */
  function Drifting(d: Drift, e: Event): Drift {
    Drift(d.ahead + 1, d.stale || e.Applied?)
  }

  lemma CreateSound(actorID: string, store: Store, e: Event)
    requires actorID != "" && Admissible(store, NONE, true, e) && e.Created?
    ensures Sound(actorID, store, [e],
                  NewState(actorID, e).(idemKey := e.idemKey, idemFingerprint := e.idemFingerprint),
                  0, NO_DRIFT)
  {
    hide WellOrdered, FullState;
    FirstRecord(actorID, store, e, Step(actorID, map[], Full, NONE, e));
  }

  lemma GrantSound(actorID: string, store: Store, history: seq<Event>, m: State, lost: int, d: Drift, owner: string,
                   at: int)
    requires Sound(actorID, store, history, m, lost, d) && owner != ""
    ensures Sound(actorID, store, history + [Granted(owner, m.epoch + 1, at)],
                  m.(owner := owner, epoch := m.epoch + 1, status := Active), lost, d)
  {
    hide WellOrdered, FullState;
    var f := FullState(actorID, history);
    SoundFields(actorID, store, history, m, lost, d);
    Extend(actorID, store, history, f, Granted(owner, m.epoch + 1, at));
  }

  /** submitActorCommand numbers a call above everything submitted or applied. */
  function NextNumber(m: State): nat {
    Max(m.submitted, m.count) + 1
  }

  /** The report comes from the owner under the current epoch. */
  predicate OwnedBy(m: State, req: Completion) {
    req.worker == m.owner && req.epoch == m.epoch
  }

  /** The next mailbox entry, or a call without a number. */
  predicate AtTurn(m: State, n: nat) {
    n == 0 || n == m.count + 1
  }

  /** One command further; a success leaves the reported state. */
  predicate Advanced(a: State, b: State, req: Completion) {
    && b.count == a.count + 1
    && b == a.(count := b.count, snapshotRef := b.snapshotRef, snapshotCount := b.snapshotCount,
               stateJson := if req.failed then a.stateJson else NormalizeJSON(req.stateJson),
               submitted := if req.failed && b.count > a.submitted then b.count else a.submitted)
  }

  predicate SnapshotDue(m: State) {
    m.every > 0 && m.count % m.every == 0
  }

  /** The command record behind a row's count. */
  function CommandOf(m: State, req: Completion, now: int): Event {
    if req.failed then Failed(m.count, m.count, req.worker, req.epoch, req.at)
    else Applied(m.count, m.count, req.worker, req.epoch, NormalizeJSON(req.stateJson), now)
  }

  /** A row points at the snapshot just taken, or at the one before. */
  predicate Snapped(a: State, b: State, taken: bool, ref: string) {
    if taken then b.snapshotRef == ref && b.snapshotCount == b.count
    else b.snapshotRef == a.snapshotRef && b.snapshotCount == a.snapshotCount
  }

  /** The snapshot record comes last, and possibly alone. */
  predicate Logged(a: seq<Event>, b: seq<Event>, m: State, taken: bool, ref: string, now: int) {
    if taken then b == a + [SnapshotOf(m, ref, now)] || b == [SnapshotOf(m, ref, now)] else b == a
  }

  /** The number after everything submitted or applied. */
  predicate IsNext(n: nat, m: State) {
    n > m.submitted && n > m.count && (n == m.submitted + 1 || n == m.count + 1)
  }

  lemma SubmitSound(actorID: string, store: Store, history: seq<Event>, m: State, lost: int, d: Drift, at: int)
    requires Sound(actorID, store, history, m, lost, d)
    ensures var e, n := Submitted(NextNumber(m), at), NextNumber(m);
            && Sound(actorID, store, history + [e], m, Marked(m.submitted + lost, e) - m.submitted, d)
            && Sound(actorID, store, history + [e], m.(submitted := n), Marked(m.submitted + lost, e) - n, d)
  {
    hide WellOrdered, FullState;
    var f := FullState(actorID, history);
    Extend(actorID, store, history, f, Submitted(NextNumber(m), at));
  }

  /** The row after a command: its number, and its state if it succeeded. */
  function CommandRow(m: State, e: Event, submitted: nat): State
    requires e.IsCommand()
  {
    m.(count := e.commandSeq, submitted := submitted,
       stateJson := if e.Applied? then NormalizeJSON(e.stateJson) else m.stateJson)
  }

  predicate NextCommand(m: State, e: Event, submitted: nat) {
    && e.IsCommand() && e.commandSeq == e.commandCount == m.count + 1
    && e.worker == m.owner != "" && e.epoch == m.epoch
    && (submitted == m.submitted || submitted == Max(m.submitted, e.commandSeq))
  }

  lemma CommandSound(actorID: string, store: Store, history: seq<Event>, m: State, lost: int, d: Drift, e: Event,
                     submitted: nat)
    requires Sound(actorID, store, history, m, lost, d) && NextCommand(m, e, submitted)
    ensures Sound(actorID, store, history + [e], CommandRow(m, e, submitted),
                  Marked(m.submitted + lost, e) - submitted, Settling(d, e))
  {
    hide WellOrdered, FullState;
    var f := FullState(actorID, history);
    Extend(actorID, store, history, f, e);
  }

  /** The log has the record already: only the row moves. */
  lemma RepeatSound(actorID: string, store: Store, history: seq<Event>, m: State, lost: int, d: Drift, e: Event,
                    submitted: nat)
    requires Sound(actorID, store, history, m, lost, d) && NextCommand(m, e, submitted)
    ensures Sound(actorID, store, history, CommandRow(m, e, submitted), m.submitted + lost - submitted, Drifting(d, e))
  {
    hide WellOrdered, FullState;
  }

  function SnapshotOf(m: State, ref: string, at: int): Event {
    Snapshot(m.className, m.classSource, m.initArgs, m.owner, m.epoch, ref, m.every, m.count, at)
  }

  lemma SnapshotSound(actorID: string, store: Store, history: seq<Event>, m: State, lost: int, d: Drift, ref: string,
                      at: int)
    requires Sound(actorID, store, history, m, lost, d) && m.owner != "" && m.count >= 1 && ref != ""
    requires ref in store ==> store[ref] == m.stateJson
    ensures Sound(actorID, store[ref := m.stateJson], history, m, lost, d)
    ensures d == NO_DRIFT ==>
              Sound(actorID, store[ref := m.stateJson], history + [SnapshotOf(m, ref, at)],
                    m.(snapshotRef := ref, snapshotCount := m.count), lost, d)
  {
    hide WellOrdered, FullState;
    var f := FullState(actorID, history);
    SoundFields(actorID, store, history, m, lost, d);
    WellOrderedStore(actorID, store, store[ref := m.stateJson], history);
    if d == NO_DRIFT {
      Extend(actorID, store[ref := m.stateJson], history, f, SnapshotOf(m, ref, at));
    }
  }

  /** A history that ends in the snapshot of a row which ran ahead: replay reads the readable
      records as if it had been this. */
  function Rewritten(m: State, submitted: nat, ref: string, at: int): seq<Event> {
    [Created(m.className, m.classSource, m.initArgs, m.every, m.idemKey, m.idemFingerprint, 0),
     Granted(m.owner, m.epoch, 0), Submitted(submitted, 0),
     Applied(m.count, m.count, m.owner, m.epoch, m.stateJson, 0), SnapshotOf(m, ref, at)]
  }

  lemma RewrittenSound(actorID: string, store: Store, m: State, submitted: nat, ref: string, at: int)
    requires actorID == m.actorID != "" && m.className != "" && m.classSource != "" && m.every > 0 && m.status == Active
    requires m.owner != "" && m.epoch >= 1 && m.count >= 1 && NormalizeJSON(m.stateJson) == m.stateJson
    requires ref != "" && ref in store && store[ref] == m.stateJson
    ensures Sound(actorID, store, Rewritten(m, submitted, ref, at), m.(snapshotRef := ref, snapshotCount := m.count),
                  Max(submitted, m.count) - m.submitted, NO_DRIFT)
  {
    hide WellOrdered, FullState;
    var log := Rewritten(m, submitted, ref, at);
    var created := NewState(actorID, log[0]).(idemKey := m.idemKey, idemFingerprint := m.idemFingerprint);
    var owned := created.(owner := m.owner, epoch := m.epoch);
    var called := owned.(submitted := submitted);
    var counted := called.(count := m.count, submitted := Max(submitted, m.count), stateJson := m.stateJson);
    assert log[..1] == [log[0]];
    FirstRecord(actorID, store, log[0], created);
    NextRecord(actorID, store, log, 1, created, owned);
    NextRecord(actorID, store, log, 2, owned, called);
    NextRecord(actorID, store, log, 3, called, counted);
    NextRecord(actorID, store, log, 4, counted,
               counted.(snapshotRef := ref, snapshotCount := m.count, updatedAt := at));
    assert log[..5] == log;
  }

  // ---- The mailbox --------------------------------------------------------------------------

  /** Numbers 1 to `submitted` belong to one call each. */
  ghost predicate Numbered(tasks: map<string, nat>, submitted: nat) {
    && (forall call :: call in tasks ==> 1 <= tasks[call] <= submitted)
    && (forall a, b :: a in tasks && b in tasks && tasks[a] == tasks[b] ==> a == b)
    && (forall n: nat :: 1 <= n <= submitted ==> Held(tasks, n))
  }

  predicate Held(tasks: map<string, nat>, n: nat) {
    exists call :: call in tasks && tasks[call] == n
  }

  /** The mailbox of an actor whose control plane has not restarted: only calls up to the
      command count have a command record, and at most one refused number is outstanding. */
  ghost predicate Mailbox(tasks: map<string, nat>, m: State, lost: int, recorded: set<string>) {
    && Numbered(tasks, m.submitted) && m.count <= m.submitted && 0 <= lost <= 1
    && (forall call :: call in recorded ==> call in tasks && tasks[call] <= m.count)
  }

  lemma NumberOne(tasks: map<string, nat>, submitted: nat, call: string)
    requires Numbered(tasks, submitted) && call !in tasks
    ensures Numbered(tasks[call := submitted + 1], submitted + 1)
  {
    var more := tasks[call := submitted + 1];
    forall n: nat | 1 <= n <= submitted + 1 ensures Held(more, n) {
      if n == submitted + 1 {
        assert more[call] == n;
      } else {
        assert Held(tasks, n);
        var c :| c in tasks && tasks[c] == n;
        assert more[c] == n;
      }
    }
  }

  /** Calls still waiting for their turn. */
  function Waiting(tasks: map<string, nat>, count: nat): set<string> {
    set call | call in tasks && tasks[call] > count
  }

  lemma NextWaiting(tasks: map<string, nat>, submitted: nat, count: nat, call: string)
    requires Numbered(tasks, submitted) && call in tasks && tasks[call] == count + 1
    ensures Waiting(tasks, count) == Waiting(tasks, count + 1) + {call} && call !in Waiting(tasks, count + 1)
  {}

  /** There are exactly as many as there are numbers left. */
  lemma {:induction false} WaitingCalls(tasks: map<string, nat>, submitted: nat, count: nat)
    requires Numbered(tasks, submitted) && count <= submitted
    ensures |Waiting(tasks, count)| == submitted - count
    decreases submitted - count
  {
    if count == submitted {
      assert Waiting(tasks, count) == {};
    } else {
      assert Held(tasks, count + 1);
      var call :| call in tasks && tasks[call] == count + 1;
      WaitingCalls(tasks, submitted, count + 1);
      NextWaiting(tasks, submitted, count, call);
    }
  }

  // ---- The state of one actor as a value ------------------------------------------------------

  /** Readable records; every record ever written; the history that replay sees - the written
      one, until a row that ran ahead is snapshotted - with how much of it was trimmed and which
      `earlier` records are still readable in front of it; the row, the mailbox, how many
      submissions the row is behind and how far ahead it ran; which calls logged a command. */
  datatype Cell = Cell(
    log: seq<Event>, written: seq<Event>, earlier: seq<Event>, base: nat, history: seq<Event>,
    meta: Option<State>, tasks: map<string, nat>, lost: int, drift: Drift, recorded: set<string>,
    restarted: bool, store: Store)

  /** The parts of a cell that only the proof keeps. */
  datatype Shadow = Shadow(
    written: seq<Event>, earlier: seq<Event>, base: nat, history: seq<Event>, lost: int, drift: Drift, restarted: bool)

  const NO_SHADOW: Shadow := Shadow([], [], 0, [], 0, NO_DRIFT, false)

  ghost predicate Kept(actorID: string, c: Cell) {
    && actorID != ""
    && c.base <= |c.history| && c.log == c.earlier + c.history[c.base..]
    && (c.base > 0 ==> c.base < |c.history| && c.history[c.base].Snapshot?)
    && (c.earlier != [] ==> c.base > 0)
    && (c.meta.None?
        ==> c.history == c.written == c.earlier == [] && c.tasks == map[] && c.recorded == {} && !c.restarted)
    && (c.meta.Some? ==> KeptRow(actorID, c, c.meta.value))
  }

  ghost predicate KeptRow(actorID: string, c: Cell, m: State)
    requires c.base <= |c.history| && (c.earlier != [] ==> c.base > 0)
    requires c.base > 0 ==> c.base < |c.history| && c.history[c.base].Snapshot?
  {
    && Sound(actorID, c.store, c.history, m, c.lost, c.drift)
    && (c.earlier != [] ==> AllSuperseded(c.store, m, c.history[c.base].snapshotCount, c.earlier))
    && (!c.restarted ==>
          c.drift == NO_DRIFT && c.history == c.written && c.earlier == [] && Mailbox(c.tasks, m, c.lost, c.recorded))
  }

  /** The parts the handlers look at. */
  lemma KeptParts(actorID: string, c: Cell)
    requires Kept(actorID, c)
    ensures actorID != "" && c.base <= |c.history| && c.log == c.earlier + c.history[c.base..]
    ensures c.meta.None? ==>
              c.history == c.log == c.written == c.earlier == [] && c.tasks == map[] && c.recorded == {} && !c.restarted
    ensures c.meta.Some? ==> Sound(actorID, c.store, c.history, c.meta.value, c.lost, c.drift)
    ensures c.meta.Some? && !c.restarted ==>
              c.drift == NO_DRIFT && c.history == c.written && c.earlier == []
              && Mailbox(c.tasks, c.meta.value, c.lost, c.recorded)
  {}

  /** The highest number the log mentions. */
  function Mentioned(c: Cell): int {
    if c.meta.Some? then c.meta.value.submitted + c.lost else 0
  }

  /** The log takes a record, and the row is installed. */
  function Recorded(c: Cell, e: Event, m: State, tasks: map<string, nat>, recorded: set<string>): Cell {
    c.(log := c.log + [e], written := c.written + [e], history := c.history + [e], meta := Some(m), tasks := tasks,
       lost := Marked(Mentioned(c), e) - m.submitted, drift := Settling(c.drift, e), recorded := recorded)
  }

  /** The log drops a record it has, and the row is installed all the same. */
  function Repeated(c: Cell, e: Event, m: State, tasks: map<string, nat>, recorded: set<string>): Cell {
    c.(meta := Some(m), tasks := tasks,
       lost := Mentioned(c) - m.submitted, drift := Drifting(c.drift, e), recorded := recorded)
  }

  lemma FrameSuperseded(store: Store, bigger: Store, f: State, g: State, n: nat, early: seq<Event>)
    requires AllSuperseded(store, f, n, early) && SameFrame(f, g) && store.Keys <= bigger.Keys
    ensures AllSuperseded(bigger, g, n, early)
  {
    forall k | 0 <= k < |early| ensures Superseded(bigger, g, n, early[k]) {
      assert Superseded(store, f, n, early[k]);
    }
  }

  lemma KeptRecord(actorID: string, c: Cell, e: Event, m: State, tasks: map<string, nat>, recorded: set<string>)
    requires Kept(actorID, c) && c.meta.Some? && SameFrame(c.meta.value, m)
    requires Sound(actorID, c.store, c.history + [e], m, Marked(Mentioned(c), e) - m.submitted, Settling(c.drift, e))
    requires !c.restarted ==> Mailbox(tasks, m, Marked(Mentioned(c), e) - m.submitted, recorded)
    ensures Kept(actorID, Recorded(c, e, m, tasks, recorded))
  {
    hide Sound, Mailbox, AllSuperseded, SameFrame, Marked;
    assert (c.history + [e])[c.base..] == c.history[c.base..] + [e];
    if c.earlier != [] {
      FrameSuperseded(c.store, c.store, c.meta.value, m, c.history[c.base].snapshotCount, c.earlier);
    }
  }

  lemma KeptFirst(actorID: string, c: Cell, e: Event, m: State)
    requires Kept(actorID, c) && c.meta.None? && c.drift == NO_DRIFT && c.base == 0
    requires Sound(actorID, c.store, [e], m, 0, NO_DRIFT) && e.Created? && m.submitted == m.count == 0
    ensures Kept(actorID, Recorded(c, e, m, map[], {}))
  {
    hide Sound;
    assert c.history + [e] == [e] && c.written + [e] == [e] && [e][0..] == [e];
  }

  lemma KeptRepeat(actorID: string, c: Cell, e: Event, m: State, tasks: map<string, nat>, recorded: set<string>)
    requires Kept(actorID, c) && c.meta.Some? && c.restarted && SameFrame(c.meta.value, m)
    requires Sound(actorID, c.store, c.history, m, Mentioned(c) - m.submitted, Drifting(c.drift, e))
    ensures Kept(actorID, Repeated(c, e, m, tasks, recorded))
  {
    hide Sound, Mailbox, AllSuperseded, SameFrame;
    if c.earlier != [] {
      FrameSuperseded(c.store, c.store, c.meta.value, m, c.history[c.base].snapshotCount, c.earlier);
    }
  }

  /** One command of a kept cell, whether the log takes its record or has it already. */
  lemma KeptCommand(actorID: string, c: Cell, e: Event, submitted: nat, recorded: set<string>)
    requires Kept(actorID, c) && c.meta.Some? && NextCommand(c.meta.value, e, submitted)
    requires !c.restarted ==>
               var m := CommandRow(c.meta.value, e, submitted);
               Mailbox(c.tasks, m, Marked(Mentioned(c), e) - m.submitted, recorded)
    ensures var m := CommandRow(c.meta.value, e, submitted);
            && Kept(actorID, Recorded(c, e, m, c.tasks, recorded))
            && (c.restarted ==> Kept(actorID, Repeated(c, e, m, c.tasks, recorded)))
  {
    hide Sound, Mailbox, Kept, Marked;
    KeptParts(actorID, c);
    var m := CommandRow(c.meta.value, e, submitted);
    CommandSound(actorID, c.store, c.history, c.meta.value, c.lost, c.drift, e, submitted);
    RepeatSound(actorID, c.store, c.history, c.meta.value, c.lost, c.drift, e, submitted);
    KeptRecord(actorID, c, e, m, c.tasks, recorded);
    if c.restarted {
      KeptRepeat(actorID, c, e, m, c.tasks, recorded);
    }
  }

  lemma KeptStore(actorID: string, c: Cell, store: Store)
    requires Kept(actorID, c) && c.meta.Some? && Sound(actorID, store, c.history, c.meta.value, c.lost, c.drift)
    requires c.store.Keys <= store.Keys
    ensures Kept(actorID, c.(store := store))
  {
    hide Sound, Mailbox, AllSuperseded;
    if c.earlier != [] {
      SameFrameSelf(c.meta.value);
      FrameSuperseded(c.store, store, c.meta.value, c.meta.value, c.history[c.base].snapshotCount, c.earlier);
    }
  }

  lemma SameFrameSelf(m: State)
    ensures SameFrame(m, m)
  {}

  lemma KeptTrim(actorID: string, c: Cell)
    requires Kept(actorID, c) && c.log != [] && c.log[|c.log| - 1].Snapshot? && c.history != []
    requires c.base < |c.history|
    ensures Kept(actorID, c.(log := [c.log[|c.log| - 1]], earlier := [], base := |c.history| - 1))
  {
    hide Sound, Mailbox, AllSuperseded;
    assert c.history[|c.history| - 1..] == [c.log[|c.log| - 1]];
    if |c.history| == 1 {
      FirstNotSnapshot(actorID, c);
    }
  }

  /** A history starts with the creation. */
  lemma FirstNotSnapshot(actorID: string, c: Cell)
    requires Kept(actorID, c) && c.history != []
    ensures c.history[0].Created?
  {
    hide WellOrdered, FullState;
    FullInvariant(actorID, c.store, c.history);
  }

  lemma KeptRestart(actorID: string, c: Cell, m: State, tasks: map<string, nat>, lost: int)
    requires Kept(actorID, c) && c.meta.Some? && Sound(actorID, c.store, c.history, m, lost, NO_DRIFT)
    requires SameFrame(c.meta.value, m)
    ensures Kept(actorID, c.(meta := Some(m), tasks := tasks, lost := lost, drift := NO_DRIFT, restarted := true))
  {
    hide Sound, Mailbox, AllSuperseded, SameFrame;
    if c.earlier != [] {
      FrameSuperseded(c.store, c.store, c.meta.value, m, c.history[c.base].snapshotCount, c.earlier);
    }
  }

  // ---- Snapshots ------------------------------------------------------------------------------

  /** The snapshot of a row that ran ahead: everything readable before it is earlier now. */
  function Rebased(c: Cell, ref: string, at: int): Cell
    requires c.meta.Some? && Mentioned(c) >= 0
  {
    var m := c.meta.value;
    c.(log := c.log + [SnapshotOf(m, ref, at)], written := c.written + [SnapshotOf(m, ref, at)],
       earlier := c.log, base := 4, history := Rewritten(m, Mentioned(c), ref, at),
       meta := Some(m.(snapshotRef := ref, snapshotCount := m.count)),
       lost := Max(Mentioned(c), m.count) - m.submitted, drift := NO_DRIFT)
  }

  /** The snapshot record is logged and the row points at it. */
  ghost function Snapshotted(c: Cell, ref: string, at: int): Cell
    requires c.meta.Some? && Mentioned(c) >= 0
  {
    var m := c.meta.value;
    if c.drift == NO_DRIFT then
      Recorded(c, SnapshotOf(m, ref, at), m.(snapshotRef := ref, snapshotCount := m.count), c.tasks, c.recorded)
    else Rebased(c, ref, at)
  }

  lemma MentionedNat(actorID: string, c: Cell)
    requires Kept(actorID, c)
    ensures Mentioned(c) >= 0
  {
    hide WellOrdered, FullState;
  }

  /** Readable records are superseded by a snapshot of a row at least as far as the log. */
  lemma ReadableSuperseded(actorID: string, c: Cell)
    requires Kept(actorID, c) && c.meta.Some?
    ensures AllSuperseded(c.store, c.meta.value, c.meta.value.count, c.log)
  {
    hide WellOrdered, FullState, Superseded, SameFrame;
    var m, f := c.meta.value, FullState(actorID, c.history);
    LogSuperseded(actorID, c.store, c.history, c.base, m.count);
    FrameFlip(f, m);
    FrameSuperseded(c.store, c.store, f, m, m.count, c.history[c.base..]);
    if c.earlier != [] {
      RecordAt(actorID, c.store, c.history, c.base);
      Monotone(actorID, c.store, c.history, c.base, |c.history|);
      assert c.history[..|c.history|] == c.history;
      MoreSuperseded(c.store, m, c.history[c.base].snapshotCount, m.count, c.earlier);
    }
    forall k | 0 <= k < |c.log| ensures Superseded(c.store, m, m.count, c.log[k]) {
      assert if k < |c.earlier| then c.log[k] == c.earlier[k] else c.log[k] == c.history[c.base..][k - |c.earlier|];
    }
  }

  lemma FrameFlip(f: State, m: State)
    ensures SameFrame(m, f) <==> SameFrame(f, m)
  {}

  lemma RebasedKept(actorID: string, c: Cell, ref: string, at: int)
    requires Kept(actorID, c) && c.meta.Some? && c.meta.value.owner != "" && c.meta.value.count >= 1 && c.restarted
    requires ref != "" && ref in c.store && c.store[ref] == c.meta.value.stateJson && Mentioned(c) >= 0
    ensures Kept(actorID, Rebased(c, ref, at))
  {
    hide Sound, Mailbox, AllSuperseded, SameFrame;
    var m := c.meta.value;
    SoundFields(actorID, c.store, c.history, m, c.lost, c.drift);
    RewrittenSound(actorID, c.store, m, Mentioned(c), ref, at);
    ReadableSuperseded(actorID, c);
    var next := m.(snapshotRef := ref, snapshotCount := m.count);
    FrameOfNext(m, next);
    FrameSuperseded(c.store, c.store, m, next, m.count, c.log);
    assert Rewritten(m, Mentioned(c), ref, at)[4..] == [SnapshotOf(m, ref, at)];
  }

  lemma FrameOfNext(m: State, n: State)
    requires n == m.(snapshotRef := n.snapshotRef, snapshotCount := n.snapshotCount)
    ensures SameFrame(m, n)
  {}

  /** Storing the state and recording the snapshot, whether or not the row ran ahead. */
  lemma SnapshotKept(actorID: string, c: Cell, ref: string, at: int)
    requires Kept(actorID, c) && c.meta.Some? && c.meta.value.owner != "" && c.meta.value.count >= 1
    requires ref != "" && (ref in c.store ==> c.store[ref] == c.meta.value.stateJson)
    ensures var put := c.(store := c.store[ref := c.meta.value.stateJson]);
            Kept(actorID, put) && Mentioned(put) >= 0 && Kept(actorID, Snapshotted(put, ref, at))
  {
    hide Sound, Mailbox, Kept, SameFrame, Marked;
    KeptParts(actorID, c);
    var m, put := c.meta.value, c.(store := c.store[ref := c.meta.value.stateJson]);
    var next := m.(snapshotRef := ref, snapshotCount := m.count);
    SnapshotSound(actorID, c.store, c.history, m, c.lost, c.drift, ref, at);
    KeptStore(actorID, c, put.store);
    MentionedNat(actorID, put);
    if c.drift == NO_DRIFT {
      FrameOfNext(m, next);
      NoMark(Mentioned(put), SnapshotOf(m, ref, at));
      if !c.restarted {
        SameMailbox(c.tasks, m, next, c.lost, c.recorded);
      }
      KeptRecord(actorID, put, SnapshotOf(m, ref, at), next, c.tasks, c.recorded);
    } else {
      RebasedKept(actorID, put, ref, at);
    }
  }

  lemma NoMark(logged: int, e: Event)
    requires !e.Submitted? && !e.IsCommand()
    ensures Marked(logged, e) == logged
  {}

  lemma SameMailbox(tasks: map<string, nat>, m: State, n: State, lost: int, recorded: set<string>)
    requires m.submitted == n.submitted && m.count == n.count
    ensures Mailbox(tasks, m, lost, recorded) <==> Mailbox(tasks, n, lost, recorded)
  {}

  // ---- Replay of a kept cell ------------------------------------------------------------------

  /** Assisted replay of the records a kept cell can read: the history's full replay, but for
      origin and the submission counter. */
  lemma ReadableReplay(actorID: string, c: Cell)
    requires Kept(actorID, c) && c.meta.Some?
    ensures
      var r, f := RawReplay(actorID, c.log, Some(c.store)), FullState(actorID, c.history);
      && r.Success?
      && SameCore(r.value.state, f) && r.value.state.submitted == Max(f.snapshotCount, Marks(c.log))
      && (c.base == 0 ==> r.value.state == f && c.log == c.history)
      && r.value.snapshotCommands <= f.count - f.snapshotCount
      && (r.value.snapshotCommands == f.count - f.snapshotCount
          <==> Unskipped(actorID, c.history, LastSnapshot(c.history) + 1, |c.history|))
  {
    hide WellOrdered, FullState, RawReplay, AssistedState, Marks, Mailbox, Unskipped, LastSnapshot, Follows,
      Superseded, KeptRow, StateInvariant, Alike, SameCore, SameFrame;
    var f, rest := FullState(actorID, c.history), RawReplay(actorID, c.history[c.base..], Some(c.store));
    KeptParts(actorID, c);
    ReplayCounters(actorID, c.store, c.history, c.base);
    ReadableRest(actorID, c.store, c.history, c.base);
    if c.earlier != [] {
      EarlierThan(actorID, c);
      MarksAppend(c.earlier, c.history[c.base..]);
      AlikeCore(RawReplay(actorID, c.log, Some(c.store)).value.state, rest.value.state, f, Marks(c.earlier));
    } else {
      assert c.log == c.history[c.base..];
    }
  }

  lemma AlikeCore(x: State, y: State, f: State, marks: nat)
    requires Alike(x, y, marks) && SameCore(y, f)
    ensures SameCore(x, f) && x.submitted == Max(y.submitted, marks)
  {}

  lemma ReadableRest(actorID: string, store: Store, history: seq<Event>, base: nat)
    requires actorID != "" && WellOrdered(actorID, store, history) && base < |history|
    requires base == 0 || history[base].Snapshot?
    ensures var s, f := AssistedState(actorID, store, history[base..]), FullState(actorID, history);
            SameCore(s, f) && s.submitted == Max(f.snapshotCount, Marks(history[base..])) && (base == 0 ==> s == f)
  {
    hide WellOrdered, FullState, AssistedState, Marks;
    FullInvariant(actorID, store, history);
    MarksFull(actorID, store, history);
    AssistedEqualsFull(actorID, store, history);
    if base == 0 {
      assert history[0..] == history;
    } else {
      TrimmedReplay(actorID, store, history, base);
    }
  }

  lemma EarlierThan(actorID: string, c: Cell)
    requires Kept(actorID, c) && c.meta.Some? && c.base > 0 && c.earlier != []
    ensures
      var r := RawReplay(actorID, c.log, Some(c.store));
      var rest := RawReplay(actorID, c.history[c.base..], Some(c.store));
      && r.Success? && rest.Success? && Alike(r.value.state, rest.value.state, Marks(c.earlier))
      && r.value.snapshotCommands == rest.value.snapshotCommands
  {
    hide WellOrdered, FullState, RawReplay, Marks, Mailbox, Superseded, Alike;
    SoundFields(actorID, c.store, c.history, c.meta.value, c.lost, c.drift);
    FrameSuperseded(c.store, c.store, c.meta.value, FullState(actorID, c.history), c.history[c.base].snapshotCount,
                    c.earlier);
    EarlierRead(actorID, c.store, c.earlier, c.history, c.base);
  }

  class ActorCell {
    const actorID: string
    const hasStore: bool
    /** The readable records of stream `actor:<id>`, and the calls whose applied or failed
        record the log store has seen: it drops a second one (internal/logstore/store.go:287-292). */
    var log: seq<Event>
    var applied: set<string>
    var failed: set<string>
    var meta: Option<State>
    /** Mailbox: the command number of every enqueued call; a start by full replay leaves only zeros. */
    var tasks: map<string, nat>
    var store: Store

    ghost var shadow: Shadow

    ghost function View(): Cell
      reads this
    {
      Cell(log, shadow.written, shadow.earlier, shadow.base, shadow.history, meta, tasks, shadow.lost, shadow.drift,
           applied + failed, shadow.restarted, store)
    }

    ghost predicate Valid()
      reads this
    {
      Kept(actorID, View()) && (meta.None? ==> shadow.drift == NO_DRIFT && shadow.base == 0)
    }

    constructor (actorID: string, hasStore: bool)
      requires actorID != ""
      ensures Valid() && this.actorID == actorID && this.hasStore == hasStore && !shadow.restarted
      ensures log == [] && meta == None && tasks == map[] && store == map[]
    {
      this.actorID := actorID;
      this.hasStore := hasStore;
      log, applied, failed, meta, tasks, store := [], {}, {}, None, map[], map[];
      shadow := NO_SHADOW;
    }

    /** A command record this call has logged before. */
    predicate Repeats(e: Event, call: string)
      reads this
    {
      (e.Applied? && call in applied) || (e.Failed? && call in failed)
    }

    /** The keys after a command record. */
    function Keys(e: Event, call: string): set<string>
      reads this
    {
      if e.IsCommand() then applied + failed + {call} else applied + failed
    }

    /** Log first: append `e` under its key, and only if the log took it - or had it - install
        the metadata row. */
    method Record(e: Event, call: string, m: State, mailbox: map<string, nat>) returns (ok: bool)
      modifies this`log, this`meta, this`tasks, this`shadow, this`applied, this`failed
      ensures ok && !old(Repeats(e, call)) ==> View() == Recorded(old(View()), e, m, mailbox, old(Keys(e, call)))
      ensures ok && old(Repeats(e, call)) ==> View() == Repeated(old(View()), e, m, mailbox, old(Keys(e, call)))
      ensures !ok ==> View() == old(View()) && applied == old(applied) && failed == old(failed)
      ensures ok ==> applied == (if e.Applied? then old(applied) + {call} else old(applied))
      ensures ok ==> failed == (if e.Failed? then old(failed) + {call} else old(failed))
    {
      hide Marked, Mentioned, Settling, Drifting;
      ok := *;
      if ok {
        var again := Repeats(e, call);
        ghost var c, keys := View(), Keys(e, call);
        ghost var next := if again then Repeated(c, e, m, mailbox, keys) else Recorded(c, e, m, mailbox, keys);
        NextFields(c, e, m, mailbox, keys, again);
        if !again {
          log := log + [e];
        }
        Mark(e, call);
        meta, tasks := Some(m), mailbox;
        shadow := shadow.(written := next.written, history := next.history, lost := next.lost, drift := next.drift);
        assert View() == next;
      }
    }

    lemma NextFields(c: Cell, e: Event, m: State, mailbox: map<string, nat>, keys: set<string>, again: bool)
      ensures var next := if again then Repeated(c, e, m, mailbox, keys) else Recorded(c, e, m, mailbox, keys);
              next == Cell(if again then c.log else c.log + [e], next.written, c.earlier, c.base, next.history,
                           Some(m), mailbox, next.lost, next.drift, keys, c.restarted, c.store)
    {}

    /** The record's key. */
    method Mark(e: Event, call: string)
      modifies this`applied, this`failed
      ensures applied == (if e.Applied? then old(applied) + {call} else old(applied))
      ensures failed == (if e.Failed? then old(failed) + {call} else old(failed))
      ensures applied + failed == old(Keys(e, call))
    {
      if e.Applied? {
        applied := applied + {call};
      }
      if e.Failed? {
        failed := failed + {call};
      }
    }

    method CreateActor(className: string, classSource: string, initArgs: Bytes, snapshotEvery: nat,
                       idemKey: string, fingerprint: string, now: int) returns (r: Outcome)
      requires Valid() && meta.None?
      modifies this
      ensures Valid()
      ensures r == Rejected(ClassNameRequired) <==> className == ""
      ensures r == Rejected(ClassSourceRequired) <==> className != "" && classSource == ""
      ensures className != "" && classSource != "" ==> r == Accepted || r == Rejected(AppendFailed)
      ensures r.Rejected? ==> meta.None? && log == old(log)
      ensures r.Accepted? ==>
        var every := if snapshotEvery == 0 then 25 else snapshotEvery;
        && meta == Some(State(actorID, className, classSource, initArgs, Active, "", 0, 0, 0, every, "", 0, EMPTY,
                              idemKey, fingerprint, now, now))
        && log == old(log) + [Created(className, classSource, initArgs, every, idemKey, fingerprint, now)]
      ensures tasks == old(tasks) && store == old(store) && shadow.restarted == old(shadow.restarted)
    {
      hide Sound, Mailbox, Kept;
      KeptParts(actorID, View());
      if className == "" {
        return Rejected(ClassNameRequired);
      }
      if classSource == "" {
        return Rejected(ClassSourceRequired);
      }
      var every := if snapshotEvery == 0 then 25 else snapshotEvery;
      var e := Created(className, classSource, initArgs, every, idemKey, fingerprint, now);
      var state := NewState(actorID, e).(idemKey := idemKey, idemFingerprint := fingerprint);
      CreateSound(actorID, store, e);
      KeptFirst(actorID, View(), e, state);
      var ok := Record(e, "", state, map[]);
      return if ok then Accepted else Rejected(AppendFailed);
    }

    /** The lowest worker ID among the active ones. */
    method LowestWorker(workers: seq<string>) returns (w: string)
      requires workers != []
      ensures w in workers && forall x :: x in workers ==> x == w || Before(w, x)
    {
      w := workers[0];
      for i := 1 to |workers|
        invariant w in workers
        invariant forall k :: 0 <= k < i ==> workers[k] == w || Before(w, workers[k])
      {
        BeforeTotal(w, workers[i]);
        if Before(workers[i], w) {
          forall k | 0 <= k < i && workers[k] != w ensures Before(workers[i], workers[k]) {
            BeforeTransitive(workers[i], w, workers[k]);
          }
          w := workers[i];
        }
      }
    }

    /** A fresh owner stays; otherwise ownership moves to the lowest active worker
        under the next epoch. */
    method EnsureActorOwner(ownerFresh: bool, workers: seq<string>, now: int) returns (r: Outcome)
      requires Valid() && meta.Some? && "" !in workers
      modifies this
      ensures Valid() && meta.Some?
      ensures r.Accepted? ==> meta.value.owner != ""
      ensures meta.value.count == old(meta.value.count)
      ensures old(meta.value.owner) != "" && ownerFresh ==> r == Accepted && meta == old(meta) && log == old(log)
      ensures !(old(meta.value.owner) != "" && ownerFresh) && r.Accepted? ==>
        && meta.value.owner in workers
           && (forall x :: x in workers ==> x == meta.value.owner || Before(meta.value.owner, x))
        && meta == Some(old(meta).value.(owner := meta.value.owner, epoch := old(meta.value.epoch) + 1,
                                         status := Active))
        && log == old(log) + [Granted(meta.value.owner, meta.value.epoch, now)]
      ensures r == Rejected(NoActiveWorker) <==> !(old(meta.value.owner) != "" && ownerFresh) && workers == []
      ensures r.Rejected? ==> meta == old(meta) && log == old(log)
      ensures r.Rejected? ==> r.reason.NoActiveWorker? || r.reason.AppendFailed?
      ensures applied + failed == old(applied + failed)
      ensures tasks == old(tasks) && store == old(store) && shadow.restarted == old(shadow.restarted)
      ensures shadow.base == old(shadow.base) && shadow.lost == old(shadow.lost) && shadow.drift == old(shadow.drift)
    {
      hide Sound, Mailbox, Kept;
      KeptParts(actorID, View());
      var state := meta.value;
      if state.owner != "" && ownerFresh {
        return Accepted;
      }
      if workers == [] {
        return Rejected(NoActiveWorker);
      }
      var owner := LowestWorker(workers);
      var epoch := state.epoch + 1;
      GrantKept(View(), owner, now);
      var ok := Record(Granted(owner, epoch, now), "", state.(owner := owner, epoch := epoch, status := Active), tasks);
      return if ok then Accepted else Rejected(AppendFailed);
    }

    lemma GrantKept(c: Cell, owner: string, now: int)
      requires Kept(actorID, c) && c.meta.Some? && owner != ""
      ensures var m := c.meta.value;
              Kept(actorID, Recorded(c, Granted(owner, m.epoch + 1, now),
                                     m.(owner := owner, epoch := m.epoch + 1, status := Active), c.tasks, c.recorded))
    {
      hide Sound, Mailbox, Kept;
      KeptParts(actorID, c);
      var m := c.meta.value;
      var next := m.(owner := owner, epoch := m.epoch + 1, status := Active);
      SoundFields(actorID, c.store, c.history, m, c.lost, c.drift);
      GrantSound(actorID, c.store, c.history, m, c.lost, c.drift, owner, now);
      if !c.restarted {
        SameMailbox(c.tasks, m, next, c.lost, c.recorded);
      }
      KeptRecord(actorID, c, Granted(owner, m.epoch + 1, now), next, c.tasks, c.recorded);
    }

    /** One mailbox command: it gets the number after everything submitted so far.
        Enqueueing comes after the append and may be refused by backpressure, which
        leaves the submission record in the log without a metadata update. */
    method SubmitActorCommand(callID: string, ownerFresh: bool, workers: seq<string>, now: int) returns (r: Outcome)
      requires Valid() && meta.Some? && "" !in workers && callID !in tasks && callID !in applied + failed
      modifies this
      ensures Valid() && meta.Some? && store == old(store) && shadow.restarted == old(shadow.restarted)
      ensures r == Rejected(NoActiveWorker) <==> !(old(meta.value.owner) != "" && ownerFresh) && workers == []
      ensures r.Rejected? ==> r.reason.NoActiveWorker? || r.reason.AppendFailed? || r.reason.Backpressure?
      ensures r.Accepted? ==>
        && IsNext(meta.value.submitted, old(meta.value)) && tasks == old(tasks)[callID := meta.value.submitted]
        && log != [] && log[|log| - 1] == Submitted(meta.value.submitted, now)
      ensures old(log) <= log
      ensures r.Rejected? ==> tasks == old(tasks) && meta.value.submitted == old(meta.value.submitted)
      ensures meta.value.count == old(meta.value.count) && meta.value.stateJson == old(meta.value.stateJson)
    {
      hide Sound, Mailbox, Kept;
      r := EnsureActorOwner(ownerFresh, workers, now);
      if r.Rejected? {
        return;
      }
      r := AppendSubmission(callID, now);
    }

    /** The append and what follows it. */
    method AppendSubmission(callID: string, now: int) returns (r: Outcome)
      requires Valid() && meta.Some? && callID !in tasks && callID !in applied + failed
      modifies this`log, this`meta, this`tasks, this`shadow, this`applied, this`failed
      ensures Valid() && meta.Some? && shadow.restarted == old(shadow.restarted)
      ensures r.Rejected? ==> r.reason.AppendFailed? || r.reason.Backpressure?
      ensures r.Accepted? ==>
        && IsNext(meta.value.submitted, old(meta.value)) && tasks == old(tasks)[callID := meta.value.submitted]
        && meta == Some(old(meta.value).(submitted := meta.value.submitted))
      ensures r.Rejected? ==> tasks == old(tasks) && meta == old(meta)
      ensures r.Accepted? || r == Rejected(Backpressure) ==>
        exists n :: IsNext(n, old(meta.value)) && log == old(log) + [Submitted(n, now)]
      ensures r.Accepted? ==> log == old(log) + [Submitted(meta.value.submitted, now)]
      ensures r == Rejected(Backpressure) ==> shadow.lost >= 1
      ensures r.Rejected? && r != Rejected(Backpressure) ==> log == old(log) && shadow.lost == old(shadow.lost)
    {
      hide Sound, Mailbox, Kept;
      var state := meta.value;
      var submittedCount := state.submitted;
      if state.count > submittedCount {
        submittedCount := state.count;
      }
      var commandSeq := submittedCount + 1;
      SubmitKept(View(), callID, now);
      assert IsNext(commandSeq, meta.value);
      var enqueued: bool := *;
      if !enqueued {
        var appended := Record(Submitted(commandSeq, now), callID, state, tasks);
        return Rejected(if appended then Backpressure else AppendFailed);
      }
      if commandSeq > state.submitted {
        state := state.(submitted := commandSeq);
      }
      var ok := Record(Submitted(commandSeq, now), callID, state, tasks[callID := commandSeq]);
      return if ok then Accepted else Rejected(AppendFailed);
    }

    /** A submission, refused or accepted. */
    lemma SubmitKept(c: Cell, call: string, now: int)
      requires Kept(actorID, c) && c.meta.Some? && call !in c.tasks
      ensures var m, n := c.meta.value, NextNumber(c.meta.value);
              && Kept(actorID, Recorded(c, Submitted(n, now), m, c.tasks, c.recorded))
              && Kept(actorID, Recorded(c, Submitted(n, now), m.(submitted := n), c.tasks[call := n], c.recorded))
    {
      hide Sound, Mailbox, Kept, Marked;
      KeptParts(actorID, c);
      var m, n := c.meta.value, NextNumber(c.meta.value);
      SubmitSound(actorID, c.store, c.history, m, c.lost, c.drift, now);
      if !c.restarted {
        OneMore(c.tasks, m, c.lost, c.recorded, call, now);
      }
      KeptRecord(actorID, c, Submitted(n, now), m, c.tasks, c.recorded);
      KeptRecord(actorID, c, Submitted(n, now), m.(submitted := n), c.tasks[call := n], c.recorded);
    }

    lemma OneMore(tasks: map<string, nat>, m: State, lost: int, recorded: set<string>, call: string, now: int)
      requires Mailbox(tasks, m, lost, recorded) && call !in tasks
      ensures var n, e := NextNumber(m), Submitted(NextNumber(m), now);
              && Mailbox(tasks, m, Marked(m.submitted + lost, e) - m.submitted, recorded)
              && Mailbox(tasks[call := n], m.(submitted := n), Marked(m.submitted + lost, e) - n, recorded)
    {
      hide Numbered;
      NumberOne(tasks, m.submitted, call);
      assert Numbered(tasks, m.submitted);
    }

    /** A command record moves the count past its call. */
    lemma OneDone(tasks: map<string, nat>, m: State, e: Event, submitted: nat, lost: int, recorded: set<string>,
                  call: string)
      requires Mailbox(tasks, m, lost, recorded) && call in tasks && tasks[call] == m.count + 1
      requires NextCommand(m, e, submitted)
      ensures call !in recorded && submitted == m.submitted
      ensures Mailbox(tasks, CommandRow(m, e, submitted), Marked(m.submitted + lost, e) - submitted, recorded + {call})
    {
      assert tasks[call] <= m.submitted;
    }

    lemma Numbers(tasks: map<string, nat>, m: State, lost: int, recorded: set<string>, call: string)
      requires Mailbox(tasks, m, lost, recorded) && call in tasks
      ensures 1 <= tasks[call] <= m.submitted && (call in recorded ==> tasks[call] <= m.count)
    {}

    /** A terminal report for one call is the next command of a kept cell. Its record can only
        be a repetition after a restart. */
    lemma CallKept(c: Cell, e: Event, submitted: nat, call: string)
      requires Kept(actorID, c) && c.meta.Some? && call in c.tasks && NextCommand(c.meta.value, e, submitted)
      requires c.tasks[call] == 0 || c.tasks[call] == c.meta.value.count + 1
      ensures var m := CommandRow(c.meta.value, e, submitted);
              && Kept(actorID, Recorded(c, e, m, c.tasks, c.recorded + {call}))
              && (c.restarted ==> Kept(actorID, Repeated(c, e, m, c.tasks, c.recorded + {call})))
              && (!c.restarted ==> call !in c.recorded)
    {
      hide Sound, Mailbox, Kept, Marked;
      KeptParts(actorID, c);
      if !c.restarted {
        Numbers(c.tasks, c.meta.value, c.lost, c.recorded, call);
        OneDone(c.tasks, c.meta.value, e, submitted, c.lost, c.recorded, call);
      }
      KeptCommand(actorID, c, e, submitted, c.recorded + {call});
    }

    /** The call logged a record of this kind before. */
    predicate AlreadyRecorded(call: string, failing: bool)
      reads this
    {
      if failing then call in failed else call in applied
    }

    /** A terminal report for one call: fenced by owner and epoch, taken only as the next
        mailbox entry. A success may also create a snapshot; if that fails the command is
        applied all the same. Without a restart the log takes every command record; a call that
        a restart brought back may have logged its own already, and then the row runs one
        further ahead of the log. The next command that is logged takes its number from the
        row, and log and row are at one count again; so they are after a snapshot. */
    method CompleteActorCall(callID: string, req: Completion, ref: string, now: int) returns (r: Outcome)
      requires Valid() && meta.Some? && callID in tasks && req.worker != ""
      requires ref != "" && (ref in store ==> store[ref] == NormalizeJSON(req.stateJson))
      modifies this
      ensures Valid() && meta.Some? && tasks == old(tasks) && shadow.restarted == old(shadow.restarted)
      ensures !shadow.restarted ==> !old(AlreadyRecorded(callID, req.failed)) || r.Rejected?
      ensures r == Rejected(Stale) <==> !old(OwnedBy(meta.value, req))
      ensures r == Rejected(OutOfOrder) <==> old(OwnedBy(meta.value, req) && !AtTurn(meta.value, tasks[callID]))
      ensures meta.value.count == old(meta.value.count) ==>
        View() == old(View()) && r.Rejected? && (r.reason.Stale? || r.reason.OutOfOrder? || r.reason.AppendFailed?)
      ensures meta.value.count != old(meta.value.count) ==>
        && old(OwnedBy(meta.value, req) && AtTurn(meta.value, tasks[callID]))
        && Advanced(old(meta.value), meta.value, req)
      ensures meta.value.count != old(meta.value.count) ==>
        var due := hasStore && !req.failed && SnapshotDue(meta.value);
        && (r == Accepted || (due && (r == Rejected(PutFailed) || r == Rejected(AppendFailed))))
        && Snapped(old(meta.value), meta.value, due && r == Accepted, ref)
        && store == (if due && r != Rejected(PutFailed) then old(store)[ref := meta.value.stateJson] else old(store))
        && var more := if old(AlreadyRecorded(callID, req.failed)) then [] else [CommandOf(meta.value, req, now)];
           Logged(old(log) + more, log, meta.value, due && r == Accepted, ref, now)
      ensures meta.value.count > old(meta.value.count) && !old(AlreadyRecorded(callID, req.failed)) ==>
        && old(shadow.written) + [CommandOf(meta.value, req, now)] <= shadow.written && shadow.drift.ahead == 0
          && (!req.failed ==> shadow.drift == NO_DRIFT)
      ensures meta.value.count > old(meta.value.count) && old(AlreadyRecorded(callID, req.failed)) ==>
        && old(shadow.written) <= shadow.written
        && (shadow.drift == NO_DRIFT
            || (shadow.drift == Drift(old(shadow.drift.ahead) + 1, old(shadow.drift.stale) || !req.failed)
                && log == old(log)))
      ensures meta.value.count > old(meta.value.count) ==> AlreadyRecorded(callID, req.failed)
    {
      hide Sound, Mailbox, Kept;
      var state := meta.value;
      if req.worker != state.owner || req.epoch != state.epoch {
        return Rejected(Stale);
      }
      var commandSeq := tasks[callID];
      if commandSeq == 0 {
        commandSeq := state.count + 1;
      }
      if commandSeq != state.count + 1 {
        return Rejected(OutOfOrder);
      }
      if req.failed {
        r := FailActorCommand(callID, req, commandSeq);
        return;
      }
      r := ApplyActorCommand(callID, req, commandSeq, now);
      if r.Rejected? {
        return;
      }
      if meta.value.every > 0 && meta.value.count % meta.value.every == 0 {
        r := CreateActorSnapshot(ref, now);
      }
    }

    /** The applied record and the row after it. */
    method ApplyActorCommand(callID: string, req: Completion, commandSeq: nat, now: int) returns (r: Outcome)
      requires Valid() && meta.Some? && callID in tasks
      requires req.worker == meta.value.owner != "" && req.epoch == meta.value.epoch
      requires commandSeq == meta.value.count + 1 && (tasks[callID] == 0 || tasks[callID] == commandSeq)
      modifies this`log, this`meta, this`tasks, this`shadow, this`applied, this`failed
      ensures Valid() && meta.Some? && shadow.restarted == old(shadow.restarted)
      ensures !shadow.restarted && r.Accepted? ==> callID !in old(applied)
      ensures r.Accepted? ==>
        meta == Some(old(meta.value).(count := commandSeq, stateJson := NormalizeJSON(req.stateJson)))
      ensures var e := Applied(commandSeq, commandSeq, req.worker, req.epoch, NormalizeJSON(req.stateJson), now);
        r.Accepted? && callID !in old(applied) ==>
          log == old(log) + [e] && shadow.written == old(shadow.written) + [e] && shadow.drift == NO_DRIFT
      ensures r.Accepted? && callID in old(applied) ==>
        log == old(log) && shadow.written == old(shadow.written)
          && shadow.drift == Drift(old(shadow.drift.ahead) + 1, true)
      ensures r.Rejected? ==> View() == old(View()) && r == Rejected(AppendFailed)
      ensures tasks == old(tasks) && (r.Accepted? ==> callID in applied)
    {
      hide Sound, Mailbox, Kept;
      var state := meta.value;
      var stateJson := NormalizeJSON(req.stateJson);
      var e := Applied(commandSeq, commandSeq, req.worker, req.epoch, stateJson, now);
      var done := state.(count := commandSeq, stateJson := stateJson, owner := req.worker, epoch := req.epoch);
      CallKept(View(), e, state.submitted, callID);
      assert done == CommandRow(state, e, state.submitted);
      var ok := Record(e, callID, done, tasks);
      return if ok then Accepted else Rejected(AppendFailed);
    }

    method FailActorCommand(callID: string, req: Completion, commandSeq: nat) returns (r: Outcome)
      requires Valid() && meta.Some? && callID in tasks
      requires req.worker == meta.value.owner != "" && req.epoch == meta.value.epoch
      requires commandSeq == meta.value.count + 1 && (tasks[callID] == 0 || tasks[callID] == commandSeq)
      modifies this`log, this`meta, this`tasks, this`shadow, this`applied, this`failed
      ensures Valid() && meta.Some? && shadow.restarted == old(shadow.restarted)
      ensures !shadow.restarted && r.Accepted? ==> callID !in old(failed)
      ensures r.Accepted? ==>
        meta == Some(old(meta.value).(count := commandSeq, submitted := Max(old(meta.value.submitted), commandSeq)))
      ensures var e := Failed(commandSeq, commandSeq, req.worker, req.epoch, req.at);
        r.Accepted? && callID !in old(failed) ==>
          log == old(log) + [e] && shadow.written == old(shadow.written) + [e]
            && shadow.drift == Drift(0, old(shadow.drift.stale))
      ensures r.Accepted? && callID in old(failed) ==>
        log == old(log) && shadow.written == old(shadow.written)
          && shadow.drift == Drift(old(shadow.drift.ahead) + 1, old(shadow.drift.stale))
      ensures r.Rejected? ==> View() == old(View()) && r == Rejected(AppendFailed)
      ensures tasks == old(tasks) && (r.Accepted? ==> callID in failed)
    {
      hide Sound, Mailbox, Kept;
      var e := Failed(commandSeq, commandSeq, req.worker, req.epoch, req.at);
      var before := meta.value;
      var state := before.(count := commandSeq, owner := req.worker, epoch := req.epoch);
      if commandSeq > state.submitted {
        state := state.(submitted := commandSeq);
      }
      CallKept(View(), e, state.submitted, callID);
      assert state == CommandRow(before, e, state.submitted);
      var ok := Record(e, callID, state, tasks);
      return if ok then Accepted else Rejected(AppendFailed);
    }

    /** Store the state, append the snapshot record, point metadata at it and trim the
        stream up to it. A failed trim is only reported. Afterwards the row has not run ahead:
        replay starts from the snapshot. */
    method CreateActorSnapshot(ref: string, now: int) returns (r: Outcome)
      requires Valid() && meta.Some? && meta.value.owner != "" && meta.value.count >= 1
      requires ref != "" && (ref in store ==> store[ref] == meta.value.stateJson)
      modifies this
      ensures Valid() && meta.Some?
      ensures meta.value == old(meta.value)
        || meta.value == old(meta.value).(snapshotRef := ref, snapshotCount := old(meta.value.count))
      ensures r.Accepted? && hasStore ==> meta.value.snapshotRef == ref && ref in store && shadow.drift == NO_DRIFT
      ensures r.Accepted? && hasStore ==> store == old(store)[ref := old(meta.value.stateJson)]
      ensures r.Accepted? && hasStore ==>
        var e := SnapshotOf(old(meta.value), ref, now); log == old(log) + [e] || log == [e]
      ensures (shadow.drift == old(shadow.drift) && log == old(log)) || shadow.drift == NO_DRIFT
      ensures old(shadow.drift) == NO_DRIFT ==> shadow.drift == NO_DRIFT
      ensures tasks == old(tasks) && shadow.restarted == old(shadow.restarted) && old(shadow.written) <= shadow.written
      ensures applied == old(applied) && failed == old(failed)
      ensures !hasStore ==> r == Accepted && View() == old(View())
      ensures r.Rejected? ==> (r.reason.PutFailed? || r.reason.AppendFailed?) && meta == old(meta) && log == old(log)
      ensures r.Accepted? && hasStore ==> meta.value.snapshotCount == meta.value.count
      ensures r == Rejected(PutFailed) ==> store == old(store)
      ensures r == Rejected(AppendFailed) ==> store == old(store)[ref := meta.value.stateJson]
    {
      hide Sound, Mailbox, Kept, Rewritten, Recorded, Rebased;
      if !hasStore {
        return Accepted;
      }
      var state := meta.value;
      var stored: bool := *;
      if !stored {
        return Rejected(PutFailed);
      }
      SnapshotKept(actorID, View(), ref, now);
      ghost var start := View();
      store := store[ref := state.stateJson];
      ghost var put := View();
      assert put == start.(store := start.store[ref := state.stateJson]);
      var ok := AppendSnapshot(ref, now);
      if !ok {
        return Rejected(AppendFailed);
      }
      SnapshottedLog(put, ref, now);
      var trimmed: bool := *;
      if trimmed {
        SnapshotLast(actorID, View());
        KeptTrim(actorID, View());
        log := [log[|log| - 1]];
        shadow := shadow.(earlier := [], base := |shadow.history| - 1);
      }
      return Accepted;
    }

    /** The snapshot record and the row that points at it. */
    method AppendSnapshot(ref: string, now: int) returns (ok: bool)
      requires meta.Some? && Mentioned(View()) >= 0
      modifies this`log, this`meta, this`tasks, this`shadow, this`applied, this`failed
      ensures View() == if ok then Snapshotted(old(View()), ref, now) else old(View())
      ensures applied == old(applied) && failed == old(failed)
    {
      hide Rewritten;
      ghost var start := View();
      var state := meta.value;
      ok := Record(SnapshotOf(state, ref, now), "", state.(snapshotRef := ref, snapshotCount := state.count), tasks);
      if ok && shadow.drift != NO_DRIFT {
        shadow := shadow.(earlier := start.log, base := 4, history := Rewritten(state, Mentioned(start), ref, now),
                          lost := Max(Mentioned(start), state.count) - state.submitted, drift := NO_DRIFT);
      }
    }

    lemma SnapshottedLog(c: Cell, ref: string, now: int)
      requires c.meta.Some? && Mentioned(c) >= 0
      ensures var d, m := Snapshotted(c, ref, now), c.meta.value;
              && d.log == c.log + [SnapshotOf(m, ref, now)] && d.written == c.written + [SnapshotOf(m, ref, now)]
              && d.meta == Some(m.(snapshotRef := ref, snapshotCount := m.count)) && d.store == c.store
              && d.tasks == c.tasks && d.restarted == c.restarted && d.recorded == c.recorded && d.drift == NO_DRIFT
    {}

    /** The last readable record is the history's last. */
    lemma SnapshotLast(actorID: string, c: Cell)
      requires Kept(actorID, c) && c.meta.Some?
      ensures c.log != [] && c.history != [] && c.base < |c.history| && c.log[|c.log| - 1] == c.history[|c.history| - 1]
    {
      hide WellOrdered, FullState, Mailbox, AllSuperseded;
    }

    // ---- Restart ------------------------------------------------------------------------------

    /** bootstrapActors for one stream, and the calls whose tasks replay as unfinished: they
        come back without their numbers. The row falls back by what it ran ahead. */
    method Restart(calls: set<string>)
      requires Valid() && meta.Some? && calls <= tasks.Keys
      modifies this`meta, this`tasks, this`shadow
      ensures Valid() && meta.Some? && shadow.restarted && shadow.drift == NO_DRIFT && shadow.base == old(shadow.base)
      ensures Follows(old(meta.value), meta.value, old(shadow.drift))
      ensures meta.value.submitted == Max(old(meta.value.snapshotCount), Marks(log))
      ensures tasks.Keys == calls && forall call :: call in calls ==> tasks[call] == 0
      ensures shadow.base == 0 ==> shadow.lost == 0 && meta.value.submitted == old(meta.value.submitted + shadow.lost)
      ensures shadow.base == 0 && !old(shadow.restarted) && calls == Waiting(old(tasks), old(meta.value.count)) ==>
        meta.value.submitted - meta.value.count == |calls| + old(shadow.lost)
    {
      hide Sound, Mailbox, Kept, RawReplay, FullState, Marks, Follows, Waiting;
      KeptParts(actorID, View());
      if !shadow.restarted {
        LeftOver(tasks, meta.value, shadow.lost, applied + failed);
        FollowsCount(View());
      }
      var row := ReplayedRow();
      ghost var behind := FullState(actorID, shadow.history).submitted - row.submitted;
      var left: map<string, nat> := map call | call in calls :: 0;
      KeptRestart(actorID, View(), row, left, behind);
      meta, tasks := Some(row), left;
      shadow := shadow.(lost := behind, drift := NO_DRIFT, restarted := true);
    }

    /** Replay's row, and what it is to this history. */
    method ReplayedRow() returns (row: State)
      requires Valid() && meta.Some?
      ensures Follows(meta.value, row, shadow.drift) && SameFrame(meta.value, row)
        && row.count + shadow.drift.ahead == meta.value.count
      ensures row.submitted == Max(meta.value.snapshotCount, Marks(log))
      ensures Sound(actorID, store, shadow.history, row, FullState(actorID, shadow.history).submitted - row.submitted,
                    NO_DRIFT)
      ensures shadow.base == 0
        ==> row.submitted == FullState(actorID, shadow.history).submitted == meta.value.submitted + shadow.lost
    {
      hide Mailbox, Kept, RawReplay, FullState, Marks, WellOrdered;
      KeptParts(actorID, View());
      FullInvariant(actorID, store, shadow.history);
      ReplayMatchesLive();
      var replayed := ReplayRawEach(actorID, log, Some(store));
      return replayed.value.state;
    }

    lemma FollowsCount(c: Cell)
      requires Kept(actorID, c) && c.meta.Some? && !c.restarted
      ensures c.drift == NO_DRIFT
    {}

    lemma LeftOver(tasks: map<string, nat>, m: State, lost: int, recorded: set<string>)
      requires Mailbox(tasks, m, lost, recorded)
      ensures |Waiting(tasks, m.count)| == m.submitted - m.count
    {
      hide Numbered;
      WaitingCalls(tasks, m.submitted, m.count);
    }

    /** Replay of the readable log against live metadata, in every state. The state always
        replays, and the row mirrors it but for what it ran ahead; they are consistent exactly
        when it did not, and the submission counter is still derivable - on an untrimmed log,
        when the row is no submission behind. */
    lemma ReplayMatchesLive()
      requires Valid() && meta.Some?
      ensures
        var r := RawReplay(actorID, log, Some(store));
        && r.Success?
        && Follows(meta.value, r.value.state, shadow.drift)
           && Mirrors(r.value.state, FullState(actorID, shadow.history))
        && r.value.state.submitted == Max(meta.value.snapshotCount, Marks(log))
        && (Consistent(r.value.state, meta.value) <==>
              && shadow.drift.ahead == 0 && r.value.state.stateJson == meta.value.stateJson
              && meta.value.submitted == Max(meta.value.snapshotCount, Marks(log)))
        && (shadow.base == 0 ==> r.value.state == FullState(actorID, shadow.history) && log == shadow.history)
        && (shadow.base == 0
            ==> (meta.value.submitted == Max(meta.value.snapshotCount, Marks(log)) <==> shadow.lost == 0))
        && r.value.snapshotCommands + shadow.drift.ahead <= meta.value.count - meta.value.snapshotCount
        && (r.value.snapshotCommands + shadow.drift.ahead == meta.value.count - meta.value.snapshotCount
            <==> Unskipped(actorID, shadow.history, LastSnapshot(shadow.history) + 1, |shadow.history|))
    {
      hide WellOrdered, FullState, RawReplay, Marks, Mailbox, Unskipped, LastSnapshot, KeptRow;
      KeptParts(actorID, View());
      FullInvariant(actorID, store, shadow.history);
      ReadableReplay(actorID, View());
    }

    /** ReplayActor: replay and compare. */
    method ReplayActor() returns (r: Result<ReplayResult, ReplayError>, consistent: bool)
      requires Valid() && meta.Some?
      ensures r.Success? && Follows(meta.value, r.value.state, shadow.drift)
      ensures consistent <==>
        && shadow.drift.ahead == 0 && r.value.state.stateJson == meta.value.stateJson
        && meta.value.submitted == Max(meta.value.snapshotCount, Marks(log))
      ensures !shadow.drift.stale ==>
        (consistent <==> shadow.drift.ahead == 0 && meta.value.submitted == Max(meta.value.snapshotCount, Marks(log)))
      ensures shadow.base == 0 && !shadow.drift.stale ==> (consistent <==> shadow.drift.ahead == 0 && shadow.lost == 0)
    {
      hide Sound, RawReplay, Marks, Mailbox, Mirrors, Kept;
      ReplayMatchesLive();
      r := ReplayRawEach(actorID, log, Some(store));
      consistent := Consistent(r.value.state, meta.value);
    }
  }
}
