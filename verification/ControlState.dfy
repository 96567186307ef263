/** Task metadata beside scheduler and log: the agreement every handler keeps
    (internal/control/service.go:640-827,900-1017, internal/control/hardening.go:276-375,
    internal/control/checkpoint.go:85-121,276-322,562-577,678-700). */
module ControlState {
  import opened Basics
  import opened TaskLog
  import opened TaskKeys
  import opened TaskProtocol
  import opened SchedulerState
  import opened SchedulerOrder
  import TaskReplay
  import TaskRestarts
  import TaskRuns

  /** A metadata row: the replayable task and what only the live store knows. */
  datatype Row = Row(task: Task, updated: int, created: int)

  /** Beside rows and streams: what the newest checkpoint has of each task - of one it does
      not know, the submission - and the positions a checkpoint in the making has read. */
  datatype Rows = Rows(
    meta: map<string, Row>, logs: map<string, seq<Record>>, specs: map<string, Spec>,
    byKey: map<string, string>, bases: map<string, Base>, marks: Option<map<string, nat>>)

  const NO_ROWS: Rows := Rows(map[], map[], map[], map[], map[], None)

  /** streamLastSeqs; a stream that came later has no position. */
  function MarkOf(marks: Option<map<string, nat>>, id: string): Option<nat> {
    if marks.None? then None else Some(if id in marks.value then marks.value[id] else 0)
  }

  /** schedulerMetaFromTask. */
  function MetaOf(row: Row): SchedMeta {
    SchedMeta(row.task.taskID, row.task.identity.targetWorker, row.task.identity.actorID, row.task.commandSeq,
              row.task.identity.modelName, row.task.identity.modelVersion, row.created, row.task.leaseEpoch)
  }

  function DeadlineOf(row: Row, timeout: int): int {
    if timeout <= 0 || row.updated == 0 then 0 else row.updated + timeout
  }

  /** The check of pollTaskIndexed; `ready` are the tasks whose mailbox and worker are. */
  function Decide(c: Rows, ready: set<string>, meta: SchedMeta): Decision {
    if meta.taskID !in c.specs then Drop
    else if meta.taskID !in c.meta || c.meta[meta.taskID].task.status.Terminal() then Drop
    else if !c.meta[meta.taskID].task.status.Queued? then Drop
    else if meta.taskID !in ready then Skip
    else Assign
  }

  /** A row, its log, the restart's base and the checkpoint's position agree: the invariant
      of the runs of one task. */
  ghost predicate Kept(id: string, row: Row, log: seq<Record>, base: Base, mark: Option<nat>) {
    && row.task.taskID == id != "" && row.updated > 0
    && TaskRuns.Steady(TaskRuns.Live(row.task, log, base, mark)) && TaskReplay.Decodes(log)
  }

  ghost predicate KeptAt(c: Rows, id: string)
    requires id in c.meta && id in c.logs && id in c.bases
  {
    Kept(id, c.meta[id], c.logs[id], c.bases[id], MarkOf(c.marks, id))
  }

  ghost predicate Ledger(c: Rows) {
    && c.meta.Keys == c.logs.Keys == c.specs.Keys == c.bases.Keys
    && (c.marks.Some? ==> c.marks.value.Keys <= c.meta.Keys)
    && forall id :: id in c.meta ==> KeptAt(c, id)
  }

  /** One task of the ledger as the runs of TaskRuns see it. */
  function LiveOf(c: Rows, id: string): TaskRuns.Live
    requires id in c.meta && id in c.logs && id in c.bases
  {
    TaskRuns.Live(c.meta[id].task, c.logs[id], c.bases[id], MarkOf(c.marks, id))
  }

  function KeyOf(c: Rows, id: string): string
    requires id in c.meta
  {
    c.meta[id].task.identity.idemKey
  }

  /** An idempotency key names at most one task, for good. */
  predicate KeyedOnce(c: Rows) {
    && (forall id :: id in c.meta && KeyOf(c, id) != "" ==> KeyOf(c, id) in c.byKey && c.byKey[KeyOf(c, id)] == id)
    && (forall key :: key in c.byKey ==> key != "" && c.byKey[key] in c.meta && KeyOf(c, c.byKey[key]) == key)
  }

  /** The queue a request belongs to: its actor's, else the one of the worker it names, else
      its model's - without a version that is v1 - else the general one. */
  function QueueOf(request: Identity): QueueKey {
    if request.actorID != "" then ActorQueue(request.actorID)
    else if request.targetWorker != "" then TargetQueue(request.targetWorker)
    else if request.modelName == "" then GeneralQueue
    else ModelQueue(ModelKey(request.modelName, if request.modelVersion == "" then "v1" else request.modelVersion))
  }

  /** A waiting task has an entry in the queue of its request, and the scheduler knows it by
      the fields of its request and row. */
  predicate Awaits(s: Sched, id: string, row: Row) {
    && id in s.queued && s.queued[id] == QueueOf(row.task.identity).Kind()
    && id in Line(s, QueueOf(row.task.identity))
    && id in s.taskMeta && s.taskMeta[id].taskID == id
    && s.taskMeta[id].targetWorker == row.task.identity.targetWorker
    && s.taskMeta[id].actorID == row.task.identity.actorID
    && s.taskMeta[id].commandSeq == row.task.commandSeq
    && s.taskMeta[id].modelName == row.task.identity.modelName
    && s.taskMeta[id].modelVersion == row.task.identity.modelVersion
    && s.taskMeta[id].createdAt == row.created
  }

  /** Scheduler and metadata in step on one task: it waits if queued, it is tracked with
      its current lease and deadline if running - unless a redelivery pass popped it. */
  ghost predicate AgreeAt(c: Rows, s: Sched, timeout: int, popped: set<string>, id: string) {
    && (id in s.queued <==> id in c.meta && c.meta[id].task.status.Queued?)
    && (id in s.queued && id in c.meta ==> Awaits(s, id, c.meta[id]))
    && (id in s.running ==> id in c.meta && id !in popped && Holds(id, c.meta[id], s.running[id], timeout))
    && (id in c.meta && c.meta[id].task.status.Running? ==> id in s.running || id in popped)
    && (id in popped ==> id in c.meta && c.meta[id].task.status.Running?)
  }

  predicate Holds(id: string, row: Row, lease: Lease, timeout: int) {
    row.task.status.Running? && lease == Lease(id, DeadlineOf(row, timeout), row.task.leaseEpoch)
  }

  ghost predicate Agree(c: Rows, s: Sched, timeout: int, popped: set<string>) {
    forall id :: AgreeAt(c, s, timeout, popped, id)
  }

  function SetRow(c: Rows, id: string, row: Row): Rows {
    c.(meta := c.meta[id := row])
  }

  /** A keyed append to one stream. */
  function LogTo(c: Rows, id: string, rec: Record): Rows
    requires id in c.logs
  {
    c.(logs := c.logs[id := Append(c.logs[id], rec)])
  }

  /** What later handlers can rely on: settled rows and their logs are frozen, leases only
      rise, requests keep their identity. */
  predicate Progress(a: Rows, b: Rows) {
    && a.meta.Keys <= b.meta.Keys && a.logs.Keys <= b.logs.Keys
    && (forall id :: id in a.meta ==> RowProgress(a.meta[id].task, b.meta[id].task))
    && (forall id :: id in a.logs ==> a.logs[id] <= b.logs[id])
    && (forall id :: id in a.meta && id in a.logs && a.meta[id].task.status.Terminal() ==> a.logs[id] == b.logs[id])
  }

  predicate RowProgress(a: Task, b: Task) {
    && a.leaseEpoch <= b.leaseEpoch && a.identity == b.identity && a.taskID == b.taskID
    && (a.status.Terminal() ==> a == b)
  }

  lemma ProgressChain(a: Rows, b: Rows, c: Rows)
    requires Progress(a, b) && Progress(b, c)
    ensures Progress(a, c)
  {
    hide RowProgress;
    forall id | id in a.meta ensures RowProgress(a.meta[id].task, c.meta[id].task) {
      RowChain(a.meta[id].task, b.meta[id].task, c.meta[id].task);
    }
    forall id | id in a.logs ensures a.logs[id] <= c.logs[id] {
      assert a.logs[id] <= b.logs[id] <= c.logs[id];
    }
    forall id | id in a.meta && id in a.logs && a.meta[id].task.status.Terminal() ensures a.logs[id] == c.logs[id] {
      RowFrozen(a.meta[id].task, b.meta[id].task);
    }
  }

  lemma RowChain(a: Task, b: Task, c: Task)
    requires RowProgress(a, b) && RowProgress(b, c)
    ensures RowProgress(a, c)
  {}

  lemma RowFrozen(a: Task, b: Task)
    requires RowProgress(a, b) && a.status.Terminal()
    ensures a == b
  {}

  lemma ProgressSelf(a: Rows)
    ensures Progress(a, a)
  {}

  lemma RowOf(c: Rows, id: string)
    requires Ledger(c) && id in c.meta
    ensures id in c.logs && id in c.specs && id in c.bases && KeptAt(c, id)
    ensures TaskRuns.Steady(LiveOf(c, id)) && TaskReplay.Decodes(c.logs[id])
  {}

  // ---- Steps of the ledger ------------------------------------------------------------------

  /** One row and its log change. */
  function Changed(c: Rows, id: string, row: Row, log: seq<Record>): Rows {
    c.(meta := c.meta[id := row], logs := c.logs[id := log])
  }

  predicate LogProgress(a: Task, from: seq<Record>, to: seq<Record>) {
    from <= to && (a.status.Terminal() ==> from == to)
  }

  lemma ChangeLedger(c: Rows, id: string, row: Row, log: seq<Record>)
    requires Ledger(c) && id in c.meta && id in c.bases && Kept(id, row, log, c.bases[id], MarkOf(c.marks, id))
    ensures Ledger(Changed(c, id, row, log))
  {
    hide Kept;
    var d := Changed(c, id, row, log);
    forall other | other in d.meta ensures KeptAt(d, other) {
      assert other != id ==> KeptAt(c, other);
    }
  }

  lemma ChangeKeys(c: Rows, id: string, row: Row, log: seq<Record>)
    requires KeyedOnce(c) && id in c.meta && RowProgress(c.meta[id].task, row.task)
    ensures KeyedOnce(Changed(c, id, row, log))
  {
    var d := Changed(c, id, row, log);
    forall other | other in d.meta ensures other in c.meta && KeyOf(d, other) == KeyOf(c, other) {}
  }

  lemma ChangeProgress(c: Rows, id: string, row: Row, log: seq<Record>)
    requires id in c.meta && id in c.logs
    requires RowProgress(c.meta[id].task, row.task) && LogProgress(c.meta[id].task, c.logs[id], log)
    ensures Progress(c, Changed(c, id, row, log))
  {
    hide RowProgress;
    var d := Changed(c, id, row, log);
    forall other | other in c.meta ensures RowProgress(c.meta[other].task, d.meta[other].task) {
      if other != id { RowSelf(c.meta[other].task); }
    }
  }

  lemma RowSelf(a: Task)
    ensures RowProgress(a, a)
  {}

  function LeasedRow(row: Row, worker: string, now: int): Row {
    row.(task := Leased(row.task, worker), updated := now)
  }

  function RequeuedRow(row: Row, now: int): Row {
    row.(task := Requeued(row.task), updated := now)
  }

  function SettledRow(row: Row, ok: bool, result: Bytes, error: string, now: int): Row {
    row.(task := Settled(row.task, ok, result, error), updated := now)
  }

  /** The terminal record and the settled row, in one step. */
  function SettledRows(c: Rows, id: string, ok: bool, result: Bytes, error: string, now: int): Rows
    requires id in c.meta && id in c.logs
  {
    SetRow(LogTo(c, id, TerminalRecord(c.meta[id].task, ok, result, error)),
           id, SettledRow(c.meta[id], ok, result, error, now))
  }

  /** A row that is new to the store: its log, specification and key. */
  function Added(c: Rows, id: string, row: Row, log: seq<Record>, spec: Spec, base: Base): Rows {
    var key := row.task.identity.idemKey;
    Rows(c.meta[id := row], c.logs[id := log], c.specs[id := spec],
         if key == "" then c.byKey else c.byKey[key := id], c.bases[id := base], c.marks)
  }

  /** The task of a submission; `commandSeq` is its place in an actor's mailbox, or 0. */
  function Submission(spec: Spec, commandSeq: nat): Task {
    SubmittedTask(spec).(commandSeq := commandSeq)
  }

  function SubmittedRow(spec: Spec, now: int, commandSeq: nat): Row {
    Row(Submission(spec, commandSeq), now, now)
  }

  function SubmittedRows(c: Rows, spec: Spec, now: int, commandSeq: nat): Rows {
    Added(c, spec.taskID, SubmittedRow(spec, now, commandSeq), [Submitted(spec)], spec, Genesis(spec))
  }

  /** What a restart replays a stream on: the checkpointed row if the checkpoint got as far as
      restoring it, else - full replay - the submitted one. */
  function StartFrom(base: Base, loaded: bool): Base {
    if loaded then base else Genesis(base.spec)
  }

  /** The row a restart makes of a log. */
  function RestoredRow(base: Base, log: seq<Record>, now: int): Row {
    Row(FinalTask(Replayed(base, log)), now, now)
  }

  lemma AddLedger(c: Rows, id: string, row: Row, log: seq<Record>, spec: Spec, base: Base)
    requires Ledger(c) && Kept(id, row, log, base, MarkOf(c.marks, id))
    ensures Ledger(Added(c, id, row, log, spec, base))
  {
    hide Kept;
    var d := Added(c, id, row, log, spec, base);
    forall other | other in d.meta ensures KeptAt(d, other) {
      assert other != id ==> KeptAt(c, other);
    }
  }

  lemma AddKeys(c: Rows, id: string, row: Row, log: seq<Record>, spec: Spec, base: Base)
    requires KeyedOnce(c) && id !in c.meta && row.task.identity.idemKey !in c.byKey
    ensures KeyedOnce(Added(c, id, row, log, spec, base))
  {
    var d := Added(c, id, row, log, spec, base);
    var key := row.task.identity.idemKey;
    assert KeyOf(d, id) == key;
    forall other | other in d.meta && KeyOf(d, other) != "" ensures KeyOf(d, other) in d.byKey
      && d.byKey[KeyOf(d, other)] == other {
      if other != id {
        assert KeyOf(d, other) == KeyOf(c, other);
      }
    }
    forall k | k in d.byKey ensures k != "" && d.byKey[k] in d.meta && KeyOf(d, d.byKey[k]) == k {
      if k != key {
        assert k in c.byKey && KeyOf(d, c.byKey[k]) == KeyOf(c, c.byKey[k]);
      }
    }
  }

  lemma AddProgress(c: Rows, id: string, row: Row, log: seq<Record>, spec: Spec, base: Base)
    requires id !in c.meta && id !in c.logs
    ensures Progress(c, Added(c, id, row, log, spec, base))
  {}

  /** A submission that comes while a checkpoint is in the making has no position there. */
  lemma SubmitKept(spec: Spec, now: int, commandSeq: nat, mark: Option<nat>)
    requires spec.taskID != "" && spec.leaseEpoch == 0 && now > 0 && (mark == None || mark == Some(0))
    ensures Kept(spec.taskID, SubmittedRow(spec, now, commandSeq), [Submitted(spec)], Genesis(spec), mark)
  {
    hide TaskRestarts.Covers;
    TaskRestarts.SubmitCovers(spec, commandSeq);
  }

  lemma RestoreKept(id: string, row: Row, log: seq<Record>, base: Base, mark: Option<nat>, loaded: bool, now: int)
    requires Kept(id, row, log, base, mark) && now > 0
    ensures var from := StartFrom(base, loaded);
            && Kept(id, RestoredRow(from, log, now), log, from, None)
            && RestoredRow(from, log, now).task.identity == row.task.identity
            && !RestoredRow(from, log, now).task.status.Running?
  {
    hide Replayed, TaskRestarts.Covers, FinalTask;
    var s := TaskRuns.Live(row.task, log, base, mark);
    TaskRuns.PlainSteady(s, if loaded then TaskRuns.Restart else TaskRuns.Fallback);
    SoundBoth(base, row.task, log);
    RestoredName(StartFrom(base, loaded), row.task, log);
  }

  lemma SoundBoth(base: Base, task: Task, log: seq<Record>)
    requires TaskRestarts.Covers(base, task, log)
    ensures Sound(base, task, log) && Sound(Genesis(base.spec), task, log)
  {}

  lemma RestoredName(base: Base, task: Task, log: seq<Record>)
    requires Sound(base, task, log)
    ensures var restored := FinalTask(Replayed(base, log));
            restored.identity == task.identity && restored.taskID == task.taskID && !restored.status.Running?
  {
    hide Replayed;
    ReplayedFacts(base, log);
  }

  // ---- Steps of the agreement -----------------------------------------------------------------

  function Ids(leases: seq<Lease>): set<string> {
    set l | l in leases :: l.taskID
  }

  predicate DistinctIds(leases: seq<Lease>) {
    forall i, j :: 0 <= i < j < |leases| ==> leases[i].taskID != leases[j].taskID
  }

  /** Popped leases are current. */
  predicate CurrentIn(c: Rows, leases: seq<Lease>) {
    forall l :: l in leases ==>
      l.taskID in c.meta && c.meta[l.taskID].task.status.Running? && c.meta[l.taskID].task.leaseEpoch == l.epoch
  }

  lemma ExpireAgrees(c: Rows, s: Sched, timeout: int, now: int, expired: seq<Lease>, t: Sched)
    requires Agree(c, s, timeout, {}) && Expired(s, now, expired, t)
    ensures Agree(c, t, timeout, Ids(expired)) && DistinctIds(expired) && CurrentIn(c, expired)
  {
    hide Less;
    forall id ensures AgreeAt(c, t, timeout, Ids(expired), id) {
      assert AgreeAt(c, s, timeout, {}, id);
      if id in s.running && id !in t.running {
        assert s.running[id] in expired;
      }
    }
    forall l | l in expired
      ensures l.taskID in c.meta && c.meta[l.taskID].task.status.Running? && c.meta[l.taskID].task.leaseEpoch == l.epoch
    {
      assert AgreeAt(c, s, timeout, {}, l.taskID);
    }
    ExpiredDistinct(s, now, expired, t);
  }

  lemma ExpiredDistinct(s: Sched, now: int, expired: seq<Lease>, t: Sched)
    requires Expired(s, now, expired, t)
    ensures DistinctIds(expired)
  {
    hide Less;
    forall i, j | 0 <= i < j < |expired| ensures expired[i].taskID != expired[j].taskID {
      LessAsymmetric(expired[i], expired[j]);
      assert expired[i] in expired && expired[j] in expired;
    }
  }

  lemma TrackAgrees(c: Rows, s: Sched, timeout: int, popped: set<string>, id: string)
    requires Agree(c, s, timeout, popped) && id in popped && timeout > 0 && id in c.meta
    requires id != "" && c.meta[id].updated > 0 && c.meta[id].task.leaseEpoch > 0
    ensures var row := c.meta[id];
            Agree(c, Tracked(s, id, DeadlineOf(row, timeout), row.task.leaseEpoch), timeout, popped - {id})
  {
    var row := c.meta[id];
    forall other ensures AgreeAt(c, Tracked(s, id, DeadlineOf(row, timeout), row.task.leaseEpoch), timeout,
                                 popped - {id}, other) {
      assert AgreeAt(c, s, timeout, popped, id) && AgreeAt(c, s, timeout, popped, other);
    }
  }

  lemma RequeueAgrees(c: Rows, s: Sched, timeout: int, popped: set<string>, id: string, now: int)
    requires Agree(c, s, timeout, popped) && id in popped && id in c.meta && c.meta[id].task.taskID == id != ""
    ensures var row := RequeuedRow(c.meta[id], now);
            Agree(SetRow(c, id, row), Enqueued(s, MetaOf(row)), timeout, popped - {id})
  {
    var row := RequeuedRow(c.meta[id], now);
    forall other ensures AgreeAt(SetRow(c, id, row), Enqueued(s, MetaOf(row)), timeout, popped - {id}, other) {
      assert AgreeAt(c, s, timeout, popped, id) && AgreeAt(c, s, timeout, popped, other);
    }
  }

  function Checking(c: Rows, ready: set<string>): Check {
    (m: SchedMeta) => Decide(c, ready, m)
  }

  /** Handing out work drops nothing: every queued task still awaits a lease. */
  lemma HandoutAgrees(
    c: Rows, s: Sched, home: map<string, QueueKey>, timeout: int, ready: set<string>, t: Sched, r: Option<SchedMeta>)
    requires Agree(c, s, timeout, {}) && Conserved(s, home) && c.meta.Keys == c.specs.Keys
    requires Handout(s, t, r, Checking(c, ready)) && Trims(s, t, r)
    ensures r == None ==> Agree(c, t, timeout, {})
    ensures StillAwaits(c, s, t)
    ensures r.Some? ==>
              var id := r.value.taskID;
              && id in c.meta && id in c.specs && c.meta[id].task.status.Queued? && id in ready
              && t.queued == s.queued - {id} && t.running == s.running
  {
    hide Agree, Conserved, Decide, Handout, Checking, StillAwaits, Trims;
    forall id | id in s.queued ensures id in s.taskMeta && s.taskMeta[id].taskID == id
      && Checking(c, ready)(s.taskMeta[id]) != Drop {
      NoDrop(c, s, home, timeout, ready, id);
    }
    HandoutQueued(s, t, r, Checking(c, ready));
    HandoutAwaits(c, s, t, r, Checking(c, ready));
    if r.Some? {
      Approved(c, ready, r.value);
    } else {
      SameAgreement(c, s, t, timeout);
    }
  }

  /** Who is not handed out waits on. */
  predicate StillAwaits(c: Rows, s: Sched, t: Sched) {
    forall id :: id in t.queued && id in c.meta && Awaits(s, id, c.meta[id]) ==> Awaits(t, id, c.meta[id])
  }

  lemma HandoutAwaits(c: Rows, s: Sched, t: Sched, r: Option<SchedMeta>, check: Check)
    requires Handout(s, t, r, check) && Trims(s, t, r)
    requires forall id :: id in s.queued ==> id in s.taskMeta && check(s.taskMeta[id]) != Drop
    ensures StillAwaits(c, s, t)
  {
    hide QueueOf, TrimAt, Gone;
    forall id | id in t.queued && id in c.meta && Awaits(s, id, c.meta[id]) ensures Awaits(t, id, c.meta[id]) {
      StaysIn(s, t, QueueOf(c.meta[id].task.identity), id);
    }
  }

  lemma StaysIn(s: Sched, t: Sched, key: QueueKey, id: string)
    requires TrimAt(s, t, key) && id in Line(s, key) && id in t.queued && t.queued[id] == key.Kind()
    ensures id in Line(t, key)
  {
    var j :| 0 <= j < |Line(s, key)| && Line(s, key)[j] == id;
    assert j >= Cut(s, t, key);
    assert Line(t, key)[j - Cut(s, t, key)] == id;
  }

  lemma Approved(c: Rows, ready: set<string>, m: SchedMeta)
    requires Checking(c, ready)(m) == Assign
    ensures m.taskID in c.specs && m.taskID in c.meta && c.meta[m.taskID].task.status.Queued? && m.taskID in ready
  {}

  lemma HandoutQueued(s: Sched, t: Sched, r: Option<SchedMeta>, check: Check)
    requires Handout(s, t, r, check)
    requires forall id :: id in s.queued ==>
               id in s.taskMeta && s.taskMeta[id].taskID == id && check(s.taskMeta[id]) != Drop
    ensures t.running == s.running
    ensures t.queued == if r.Some? then s.queued - {r.value.taskID} else s.queued
    ensures r.Some? ==> check(r.value) == Assign
  {}

  lemma SameAgreement(c: Rows, s: Sched, t: Sched, timeout: int)
    requires Agree(c, s, timeout, {}) && t.queued == s.queued && t.running == s.running && StillAwaits(c, s, t)
    ensures Agree(c, t, timeout, {})
  {
    hide Awaits;
    forall id ensures AgreeAt(c, t, timeout, {}, id) {
      assert AgreeAt(c, s, timeout, {}, id);
    }
  }

  lemma NoDrop(c: Rows, s: Sched, home: map<string, QueueKey>, timeout: int, ready: set<string>, id: string)
    requires Agree(c, s, timeout, {}) && Conserved(s, home) && c.meta.Keys == c.specs.Keys && id in s.queued
    ensures id in s.taskMeta && s.taskMeta[id].taskID == id && Checking(c, ready)(s.taskMeta[id]) != Drop
  {
    assert AgreeAt(c, s, timeout, {}, id);
    assert Homed(s, home, id);
  }

  lemma LeaseAgrees(c: Rows, s: Sched, t: Sched, timeout: int, id: string, worker: string, now: int)
    requires Agree(c, s, timeout, {}) && id in c.meta && c.meta[id].task.status.Queued? && id != ""
    requires t.queued == s.queued - {id} && t.running == s.running && timeout > 0 && now > 0 && StillAwaits(c, s, t)
    ensures var row := LeasedRow(c.meta[id], worker, now);
            Agree(SetRow(c, id, row), Tracked(t, id, DeadlineOf(row, timeout), row.task.leaseEpoch), timeout, {})
  {
    var row := LeasedRow(c.meta[id], worker, now);
    var u := Tracked(t, id, DeadlineOf(row, timeout), row.task.leaseEpoch);
    assert u.queued == t.queued
      && u.running == t.running[id := Lease(id, DeadlineOf(row, timeout), row.task.leaseEpoch)];
    forall other ensures AgreeAt(SetRow(c, id, row), u, timeout, {}, other) {
      assert AgreeAt(c, s, timeout, {}, id) && AgreeAt(c, s, timeout, {}, other);
    }
  }

  lemma SettleAgrees(c: Rows, s: Sched, timeout: int, id: string, d: Rows)
    requires Agree(c, s, timeout, {}) && id != ""
    requires id in d.meta && d.meta[id].task.status.Terminal() && d.meta == c.meta[id := d.meta[id]]
    ensures Agree(d, Forgotten(s, id), timeout, {})
  {
    forall other ensures AgreeAt(d, Forgotten(s, id), timeout, {}, other) {
      assert AgreeAt(c, s, timeout, {}, other);
    }
  }

  /** A new row is queued, or settled already. */
  lemma AddAgrees(c: Rows, s: Sched, timeout: int, id: string, row: Row, log: seq<Record>, spec: Spec, base: Base)
    requires Agree(c, s, timeout, {}) && id !in c.meta && row.task.taskID == id != ""
    requires row.task.status.Queued? || row.task.status.Terminal()
    ensures var t := if row.task.status.Queued? then Enqueued(s, MetaOf(row)) else s;
            Agree(Added(c, id, row, log, spec, base), t, timeout, {})
  {
    var t := if row.task.status.Queued? then Enqueued(s, MetaOf(row)) else s;
    forall other ensures AgreeAt(Added(c, id, row, log, spec, base), t, timeout, {}, other) {
      assert AgreeAt(c, s, timeout, {}, id) && AgreeAt(c, s, timeout, {}, other);
    }
  }

  /** The agreement looks at rows only. */
  lemma LogAgrees(c: Rows, s: Sched, timeout: int, popped: set<string>, d: Rows)
    requires Agree(c, s, timeout, popped) && d.meta == c.meta
    ensures Agree(d, s, timeout, popped)
  {
    forall other ensures AgreeAt(d, s, timeout, popped, other) {
      assert AgreeAt(c, s, timeout, popped, other);
    }
  }

  // ---- Everything at once -----------------------------------------------------------------

  /** The invariant of the control plane; `popped` are leases in a redelivery pass's hands. */
  ghost predicate InStep(c: Rows, s: Sched, timeout: int, popped: set<string>) {
    Ledger(c) && KeyedOnce(c) && Agree(c, s, timeout, popped)
  }

  /** What the invariant says about one task between handlers. */
  lemma WhereATaskIs(c: Rows, s: Sched, timeout: int, id: string)
    requires InStep(c, s, timeout, {}) && id in c.meta
    ensures match c.meta[id].task.status
            case Queued => id !in s.running && Awaits(s, id, c.meta[id])
            case Running =>
              id !in s.queued && id in s.running
              && s.running[id] == Lease(id, DeadlineOf(c.meta[id], timeout), c.meta[id].task.leaseEpoch)
            case _ => id !in s.queued && id !in s.running && c.meta[id].task.status.Terminal()
    ensures id in c.logs && id in c.specs && id in c.bases && TaskRuns.Steady(LiveOf(c, id))
  {
    hide KeyedOnce, TaskRuns.Steady, Awaits;
    RowOf(c, id);
    assert AgreeAt(c, s, timeout, {}, id);
    Specified(LiveOf(c, id));
  }

  lemma Specified(s: TaskRuns.Live)
    requires TaskRuns.Steady(s)
    ensures !s.task.status.Unspecified?
  {}

  /** What a redelivery pass holds while it works. */
  ghost predicate InHand(c: Rows, s: Sched, timeout: int, leases: seq<Lease>) {
    InStep(c, s, timeout, Ids(leases)) && DistinctIds(leases) && CurrentIn(c, leases)
  }

  lemma StepExpire(c: Rows, s: Sched, timeout: int, now: int, expired: seq<Lease>, t: Sched)
    requires InStep(c, s, timeout, {}) && Expired(s, now, expired, t)
    ensures InHand(c, t, timeout, expired)
  {
    hide Ledger, KeyedOnce, Agree, Expired;
    ExpireAgrees(c, s, timeout, now, expired, t);
  }

  lemma HeldRow(c: Rows, s: Sched, timeout: int, leases: seq<Lease>, k: nat)
    requires InHand(c, s, timeout, leases) && k < |leases|
    ensures var id := leases[k].taskID;
            && id in c.meta && id in c.logs && id in c.bases
            && c.meta[id].task.status.Running? && c.meta[id].task.taskID == id != ""
            && c.meta[id].task.leaseEpoch == leases[k].epoch && c.meta[id].updated > 0
  {
    hide Agree, KeyedOnce, Ledger;
    assert leases[k] in leases;
    RowName(c, leases[k].taskID);
  }

  function Without<T>(xs: seq<T>, k: nat): seq<T>
    requires k < |xs|
  {
    xs[..k] + xs[k + 1..]
  }

  lemma WithoutAt(leases: seq<Lease>, k: nat)
    requires k < |leases|
    ensures |Without(leases, k)| == |leases| - 1
    ensures forall i :: 0 <= i < |leases| - 1 ==> Without(leases, k)[i] == leases[if i < k then i else i + 1]
  {}

  lemma WithoutDistinct(leases: seq<Lease>, k: nat)
    requires DistinctIds(leases) && k < |leases|
    ensures DistinctIds(Without(leases, k))
    ensures forall l :: l in Without(leases, k) ==> l in leases && l.taskID != leases[k].taskID
  {
    hide Without;
    WithoutAt(leases, k);
  }

  lemma WithoutRest(leases: seq<Lease>, k: nat, id: string)
    requires k < |leases| && id in Ids(leases) && id != leases[k].taskID
    ensures id in Ids(Without(leases, k))
  {
    var l :| l in leases && l.taskID == id;
    assert leases == leases[..k] + [leases[k]] + leases[k + 1..];
    assert l in Without(leases, k);
  }

  lemma WithoutIds(leases: seq<Lease>, k: nat)
    requires DistinctIds(leases) && k < |leases|
    ensures DistinctIds(Without(leases, k)) && Ids(Without(leases, k)) == Ids(leases) - {leases[k].taskID}
    ensures forall l :: l in Without(leases, k) ==> l in leases
  {
    hide Without, DistinctIds;
    WithoutDistinct(leases, k);
    forall id | id in Ids(leases) - {leases[k].taskID} ensures id in Ids(Without(leases, k)) {
      WithoutRest(leases, k, id);
    }
  }

  /** The scheduler tracks a popped lease again. */
  lemma StepTrack(c: Rows, s: Sched, timeout: int, leases: seq<Lease>, k: nat)
    requires InHand(c, s, timeout, leases) && k < |leases| && timeout > 0
    ensures var id := leases[k].taskID;
            id in c.meta && InHand(c, Tracked(s, id, DeadlineOf(c.meta[id], timeout), c.meta[id].task.leaseEpoch),
                                   timeout, Without(leases, k))
  {
    hide Agree, KeyedOnce, KeptAt, DistinctIds;
    HeldRow(c, s, timeout, leases, k);
    WithoutIds(leases, k);
    RowOf(c, leases[k].taskID);
    RunningLease(c, leases[k].taskID);
    TrackAgrees(c, s, timeout, Ids(leases), leases[k].taskID);
  }

  lemma RunningLease(c: Rows, id: string)
    requires id in c.meta && id in c.logs && id in c.bases && KeptAt(c, id) && c.meta[id].task.status.Running?
    ensures c.meta[id].updated > 0 && c.meta[id].task.leaseEpoch > 0
  {}

  /** What one act of a task leaves of its row and log is kept. */
  lemma KeptNext(c: Rows, id: string, row: Row, log: seq<Record>)
    requires id in c.bases && row.task.taskID == id != "" && row.updated > 0
    requires TaskRuns.Steady(TaskRuns.Live(row.task, log, c.bases[id], MarkOf(c.marks, id)))
    requires id in c.logs && TaskReplay.Decodes(c.logs[id])
    requires log == c.logs[id] || exists rec: Record :: !rec.Undecodable? && log == c.logs[id] + [rec]
    ensures Kept(id, row, log, c.bases[id], MarkOf(c.marks, id))
  {
    hide TaskRuns.Steady;
  }

  /** A redelivery record is logged for a popped lease. */
  lemma StepLogRedelivery(c: Rows, s: Sched, timeout: int, leases: seq<Lease>, k: nat)
    requires InHand(c, s, timeout, leases) && k < |leases|
    ensures var id := leases[k].taskID;
            id in c.meta && id in c.logs &&
            var d := LogTo(c, id, Redelivered(c.meta[id].task.leaseEpoch));
            InHand(d, s, timeout, leases) && Progress(c, d)
  {
    hide Agree, KeyedOnce, Ledger, Progress, DistinctIds;
    HeldRow(c, s, timeout, leases, k);
    var id := leases[k].taskID;
    var rec := Redelivered(c.meta[id].task.leaseEpoch);
    RowOf(c, id);
    TaskRuns.LogSteady(LiveOf(c, id), TaskRuns.LogRedelivery);
    KeptNext(c, id, c.meta[id], Append(c.logs[id], rec));
    RowSelf(c.meta[id].task);
    assert c.meta[id := c.meta[id]] == c.meta;
    ChangeLedger(c, id, c.meta[id], Append(c.logs[id], rec));
    ChangeKeys(c, id, c.meta[id], Append(c.logs[id], rec));
    ChangeProgress(c, id, c.meta[id], Append(c.logs[id], rec));
    LogAgrees(c, s, timeout, Ids(leases), LogTo(c, id, rec));
  }

  /** A popped lease goes back to the queue. */
  lemma StepRequeue(c: Rows, s: Sched, timeout: int, leases: seq<Lease>, k: nat, now: int)
    requires InHand(c, s, timeout, leases) && k < |leases| && now > 0
    ensures var id := leases[k].taskID;
            id in c.meta &&
            var row := RequeuedRow(c.meta[id], now);
            InHand(SetRow(c, id, row), Enqueued(s, MetaOf(row)), timeout, Without(leases, k))
            && Progress(c, SetRow(c, id, row))
  {
    hide Agree, KeyedOnce, Ledger, Progress;
    HeldRow(c, s, timeout, leases, k);
    WithoutIds(leases, k);
    var id := leases[k].taskID;
    RowOf(c, id);
    TaskRuns.RequeueSteady(LiveOf(c, id));
    KeptNext(c, id, RequeuedRow(c.meta[id], now), c.logs[id]);
    assert c.logs[id := c.logs[id]] == c.logs;
    ChangeLedger(c, id, RequeuedRow(c.meta[id], now), c.logs[id]);
    ChangeKeys(c, id, RequeuedRow(c.meta[id], now), c.logs[id]);
    ChangeProgress(c, id, RequeuedRow(c.meta[id], now), c.logs[id]);
    RequeueAgrees(c, s, timeout, Ids(leases), id, now);
    var d := SetRow(c, id, RequeuedRow(c.meta[id], now));
    forall l | l in Without(leases, k)
      ensures l.taskID in d.meta && d.meta[l.taskID].task.status.Running? && d.meta[l.taskID].task.leaseEpoch == l.epoch
    {
      assert l.taskID in Ids(Without(leases, k));
    }
  }

  lemma NothingHeld(c: Rows, s: Sched, timeout: int)
    ensures InHand(c, s, timeout, []) <==> InStep(c, s, timeout, {})
  {
    assert Ids([]) == {};
  }

  /** One round of polling that hands nothing out. */
  lemma StepNoWork(
    c: Rows, s: Sched, home: map<string, QueueKey>, timeout: int, ready: set<string>, w: Snapshot,
    inspected: seq<ModelKey>, ranked: seq<ModelKey>)
    requires InStep(c, s, timeout, {}) && Conserved(s, home)
    ensures var r := Assigned(s, w, inspected, ranked, Checking(c, ready));
            r.1 == None ==> InStep(c, r.0, timeout, {})
  {
    hide Agree, KeyedOnce, Conserved, Assigned, Handout, Trims, StillAwaits;
    AssignConserves(s, home, w, inspected, ranked, Checking(c, ready));
    AssignTrims(s, home, w, inspected, ranked, Checking(c, ready));
    var r := Assigned(s, w, inspected, ranked, Checking(c, ready));
    HandoutAgrees(c, s, home, timeout, ready, r.0, r.1);
  }

  /** One round that leases the task it was handed. */
  lemma StepLease(
    c: Rows, s: Sched, home: map<string, QueueKey>, timeout: int, ready: set<string>, w: Snapshot,
    inspected: seq<ModelKey>, ranked: seq<ModelKey>, now: int)
    requires InStep(c, s, timeout, {}) && Conserved(s, home) && timeout > 0 && now > 0 && w.worker != ""
    ensures var r := Assigned(s, w, inspected, ranked, Checking(c, ready));
            r.1.Some? ==>
              var id := r.1.value.taskID;
              id in c.meta && id in c.specs && c.meta[id].task.status.Queued? && id in ready &&
              var row := LeasedRow(c.meta[id], w.worker, now);
              InStep(SetRow(c, id, row), Tracked(r.0, id, DeadlineOf(row, timeout), row.task.leaseEpoch), timeout, {})
              && Progress(c, SetRow(c, id, row)) && row.task.taskID == id
  {
    hide Agree, KeyedOnce, Conserved, Assigned, Handout, Progress, Ledger, Trims, StillAwaits;
    LedgerKeys(c);
    AssignConserves(s, home, w, inspected, ranked, Checking(c, ready));
    AssignTrims(s, home, w, inspected, ranked, Checking(c, ready));
    var r := Assigned(s, w, inspected, ranked, Checking(c, ready));
    HandoutAgrees(c, s, home, timeout, ready, r.0, r.1);
    if r.1.Some? {
      var id := r.1.value.taskID;
      RowName(c, id);
      RowOf(c, id);
      var row := LeasedRow(c.meta[id], w.worker, now);
      TaskRuns.PlainSteady(LiveOf(c, id), TaskRuns.Lease(w.worker));
      KeptNext(c, id, row, c.logs[id]);
      assert c.logs[id := c.logs[id]] == c.logs;
      ChangeLedger(c, id, row, c.logs[id]);
      ChangeKeys(c, id, row, c.logs[id]);
      ChangeProgress(c, id, row, c.logs[id]);
      LeaseAgrees(c, s, r.0, timeout, id, w.worker, now);
    }
  }

  lemma RowName(c: Rows, id: string)
    requires Ledger(c) && id in c.meta
    ensures c.meta[id].task.taskID == id != "" && c.meta[id].updated > 0 && id in c.logs && id in c.specs
      && id in c.bases
  {
    RowOf(c, id);
  }

  lemma LedgerKeys(c: Rows)
    requires Ledger(c)
    ensures c.meta.Keys == c.logs.Keys == c.specs.Keys == c.bases.Keys
  {}

  lemma StepStart(c: Rows, s: Sched, timeout: int, id: string, worker: string)
    requires InStep(c, s, timeout, {}) && id in c.meta && c.meta[id].task.status.Running?
    requires worker == c.meta[id].task.worker
    ensures id in c.logs &&
            var d := LogTo(c, id, Started(c.meta[id].task.leaseEpoch, worker));
            InStep(d, s, timeout, {}) && Progress(c, d)
  {
    hide Agree, KeyedOnce, Progress, Ledger;
    RowName(c, id);
    var rec := Started(c.meta[id].task.leaseEpoch, worker);
    RowOf(c, id);
    TaskRuns.LogSteady(LiveOf(c, id), TaskRuns.Start);
    KeptNext(c, id, c.meta[id], Append(c.logs[id], rec));
    RowSelf(c.meta[id].task);
    assert c.meta[id := c.meta[id]] == c.meta;
    ChangeLedger(c, id, c.meta[id], Append(c.logs[id], rec));
    ChangeKeys(c, id, c.meta[id], Append(c.logs[id], rec));
    ChangeProgress(c, id, c.meta[id], Append(c.logs[id], rec));
    LogAgrees(c, s, timeout, {}, LogTo(c, id, rec));
  }

  lemma StepSettle(c: Rows, s: Sched, timeout: int, id: string, ok: bool, result: Bytes, error: string, now: int)
    requires InStep(c, s, timeout, {}) && id in c.meta && c.meta[id].task.status.Running? && now > 0
    ensures id in c.logs && id != "" &&
            var d := SettledRows(c, id, ok, result, error, now);
            InStep(d, Forgotten(s, id), timeout, {}) && Progress(c, d)
  {
    hide Agree, KeyedOnce, Progress, Ledger;
    RowName(c, id);
    RowOf(c, id);
    var rec := TerminalRecord(c.meta[id].task, ok, result, error);
    TaskRuns.LogSteady(LiveOf(c, id), TaskRuns.Complete(ok, result, error));
    KeptNext(c, id, SettledRow(c.meta[id], ok, result, error, now), Append(c.logs[id], rec));
    ChangeLedger(c, id, SettledRow(c.meta[id], ok, result, error, now), Append(c.logs[id], rec));
    ChangeKeys(c, id, SettledRow(c.meta[id], ok, result, error, now), Append(c.logs[id], rec));
    ChangeProgress(c, id, SettledRow(c.meta[id], ok, result, error, now), Append(c.logs[id], rec));
    SettleAgrees(c, s, timeout, id, SettledRows(c, id, ok, result, error, now));
  }

  /** Before a completion it is known whether the next restart - from the newest checkpoint, or
      by full replay - will keep it: exactly when what it replays backs the lease and the
      completion's key is new to the log. */
  lemma SettleSurvives(c: Rows, s: Sched, timeout: int, id: string, ok: bool, result: Bytes, error: string, now: int)
    requires InStep(c, s, timeout, {}) && id in c.meta && c.meta[id].task.status.Running?
    ensures id in c.logs && id in c.bases &&
            var task, log, d := c.meta[id].task, c.logs[id], SettledRows(c, id, ok, result, error, now);
            forall loaded ::
              var from := StartFrom(c.bases[id], loaded);
              FinalTask(Replayed(from, d.logs[id])).status.Terminal()
              <==> Backed(from, log, task.leaseEpoch) && !Keyed(log, TerminalRecord(task, ok, result, error))
  {
    hide Agree, KeyedOnce, Sound, Replayed, Backed, Keyed;
    RowOf(c, id);
    SoundBoth(c.bases[id], c.meta[id].task, c.logs[id]);
    CompleteSound(c.bases[id], c.meta[id].task, c.logs[id], ok, result, error);
    CompleteSound(Genesis(c.bases[id].spec), c.meta[id].task, c.logs[id], ok, result, error);
  }

  /** In full replay that is: logged as started, and never given up in the log. */
  lemma SettleSurvivesReplay(c: Rows, s: Sched, timeout: int, id: string)
    requires InStep(c, s, timeout, {}) && id in c.meta && c.meta[id].task.status.Running?
    ensures id in c.logs && id in c.bases &&
            var e := c.meta[id].task.leaseEpoch;
            && (Backed(Genesis(c.bases[id].spec), c.logs[id], e) <==> Durable(c.logs[id], e))
            && (Durable(c.logs[id], e) ==> Backed(c.bases[id], c.logs[id], e))
  {
    hide Agree, KeyedOnce, Sound, Replayed, Backed, Durable;
    RowOf(c, id);
    SoundHead(c.bases[id], c.meta[id].task, c.logs[id]);
    GenesisBacked(c.logs[id], c.meta[id].task.leaseEpoch);
  }

  lemma SoundHead(base: Base, task: Task, log: seq<Record>)
    requires TaskRestarts.Covers(base, task, log)
    ensures Headed(log) && log[0] == Submitted(base.spec)
  {}

  /** Completing a settled task again only tidies the scheduler. */
  lemma StepResettle(c: Rows, s: Sched, timeout: int, id: string)
    requires InStep(c, s, timeout, {}) && id in c.meta && c.meta[id].task.status.Terminal()
    ensures InStep(c, Forgotten(s, id), timeout, {})
  {
    hide Agree, KeyedOnce, Ledger;
    RowName(c, id);
    assert c.meta == c.meta[id := c.meta[id]];
    SettleAgrees(c, s, timeout, id, c);
  }

  lemma StepAdd(c: Rows, s: Sched, timeout: int, id: string, row: Row, log: seq<Record>, spec: Spec, base: Base)
    requires InStep(c, s, timeout, {}) && id !in c.meta && Kept(id, row, log, base, MarkOf(c.marks, id))
    requires row.task.identity.idemKey !in c.byKey && !row.task.status.Running?
    ensures var d := Added(c, id, row, log, spec, base);
            var t := if row.task.status.Queued? then Enqueued(s, MetaOf(row)) else s;
            InStep(d, t, timeout, {}) && Progress(c, d)
  {
    hide Agree, KeyedOnce, Ledger, Progress, Kept;
    LedgerKeys(c);
    KeptShape(id, row, log, base, MarkOf(c.marks, id));
    AddLedger(c, id, row, log, spec, base);
    AddKeys(c, id, row, log, spec, base);
    AddProgress(c, id, row, log, spec, base);
    AddAgrees(c, s, timeout, id, row, log, spec, base);
  }

  /** A new submission. */
  lemma StepSubmit(c: Rows, s: Sched, timeout: int, spec: Spec, now: int, commandSeq: nat)
    requires InStep(c, s, timeout, {}) && spec.taskID !in c.meta && spec.identity.idemKey !in c.byKey
    requires spec.taskID != "" && spec.leaseEpoch == 0 && now > 0
    ensures var d := SubmittedRows(c, spec, now, commandSeq);
            InStep(d, Enqueued(s, MetaOf(SubmittedRow(spec, now, commandSeq))), timeout, {}) && Progress(c, d)
  {
    hide Agree, KeyedOnce, Progress, KeptAt, Kept, MetaOf, Enqueued;
    SubmitKept(spec, now, commandSeq, MarkOf(c.marks, spec.taskID));
    StepAdd(c, s, timeout, spec.taskID, SubmittedRow(spec, now, commandSeq), [Submitted(spec)], spec, Genesis(spec));
  }

  lemma KeptShape(id: string, row: Row, log: seq<Record>, base: Base, mark: Option<nat>)
    requires Kept(id, row, log, base, mark)
    ensures row.task.taskID == id != "" && !row.task.status.Unspecified?
  {}

  // ---- Log first ------------------------------------------------------------------------------

  /** The log no longer lets this lease settle the task. */
  predicate Fenced(c: Rows, l: Lease) {
    l.taskID in c.logs && !Unfenced(c.logs[l.taskID], l.epoch)
  }

  /** A redelivery pass leaves a row alone or requeues a running one whose lease the log has
      fenced already. */
  predicate Recovered(a: Rows, b: Rows) {
    && a.meta.Keys == b.meta.Keys
    && forall id :: id in a.meta ==>
         b.meta[id].task == a.meta[id].task
         || (a.meta[id].task.status.Running? && b.meta[id].task == Requeued(a.meta[id].task)
             && Fenced(b, Lease(id, 0, a.meta[id].task.leaseEpoch)))
  }

  lemma FencedLog(c: Rows, id: string, epoch: nat, l: Lease)
    requires id in c.logs && (Fenced(c, l) || (l.taskID == id && l.epoch == epoch))
    ensures Fenced(LogTo(c, id, Redelivered(epoch)), l)
  {
    hide Unfenced;
    GrowFence(c.logs[id], Redelivered(epoch), l.epoch);
  }

  lemma RecoveredStep(a: Rows, c: Rows, id: string, now: int)
    requires Recovered(a, c) && id in c.meta && c.meta[id].task.status.Running?
    requires Fenced(c, Lease(id, 0, c.meta[id].task.leaseEpoch))
    ensures Recovered(a, SetRow(c, id, RequeuedRow(c.meta[id], now)))
  {
    hide Unfenced;
  }

  /** Two rounds of a pass: a row requeued before is left alone. */
  lemma RecoveredChain(a: Rows, b: Rows, c: Rows)
    requires Recovered(a, b) && Recovered(b, c) && a.logs == b.logs == c.logs
    ensures Recovered(a, c)
  {
    hide Unfenced;
  }

  lemma RecoveredSelf(a: Rows, b: Rows)
    requires a.meta == b.meta
    ensures Recovered(a, b)
  {}

  // ---- What a redelivery pass does to each task -------------------------------------------------

  /** What one pass read and was told: the clock when it popped expired leases, then per task
      in its two later looks at the clock, and whose append was refused. */
  datatype Pass = Pass(now: int, seen: map<string, int>, again: map<string, int>, refused: Option<string>)

  /** A running lease is looked at when its time is up by the first reading; it is logged when
      the second reading agrees - in a refused pass possibly not - and requeued when the
      third does. Everything else stays as it is. */
  predicate PassedAt(a: Rows, b: Rows, timeout: int, p: Pass, id: string)
    requires id in a.meta && id in a.logs && id in b.meta && id in b.logs
  {
    var row, due := a.meta[id], a.meta[id].updated + timeout;
    var logged := a.logs[id] + [Redelivered(row.task.leaseEpoch)];
    && (id in p.seen <==> row.task.status.Running? && due <= p.now)
    && (id in p.again <==> id in p.seen && due <= p.seen[id] && p.refused.None?)
    && (if id !in p.seen || p.seen[id] < due then b.logs[id] == a.logs[id]
        else if p.refused.None? then b.logs[id] == logged
        else b.logs[id] == a.logs[id] || (b.logs[id] == logged && p.refused != Some(id)))
    && (if id in p.again && due <= p.again[id] then
          b.meta[id] == row.(task := row.task.(status := Queued, worker := ""), updated := p.again[id])
        else b.meta[id] == row)
  }

  ghost predicate PassedOver(a: Rows, b: Rows, timeout: int, p: Pass) {
    && a.meta.Keys == b.meta.Keys == a.logs.Keys == b.logs.Keys
    && (forall id :: id in a.meta ==> PassedAt(a, b, timeout, p, id))
    && (p.refused.Some? ==> p.refused.value in p.seen && p.refused.value in a.meta
                            && p.seen[p.refused.value] >= a.meta[p.refused.value].updated + timeout)
  }

  /** The running rows whose time is up. */
  predicate AllDue(c: Rows, timeout: int, now: int, expired: seq<Lease>) {
    forall id :: id in c.meta ==>
      (id in Ids(expired) <==> c.meta[id].task.status.Running? && c.meta[id].updated + timeout <= now)
  }

  /** Those are the leases popped by `now`. */
  lemma ExpiredAreDue(c: Rows, s: Sched, timeout: int, now: int, expired: seq<Lease>, t: Sched)
    requires InStep(c, s, timeout, {}) && Expired(s, now, expired, t) && timeout > 0
    ensures AllDue(c, timeout, now, expired) && InHand(c, t, timeout, expired) && DistinctIds(expired)
    ensures c.meta.Keys == c.logs.Keys
  {
    hide Less, KeyedOnce, KeptAt, InHand, DistinctIds, Awaits;
    StepExpire(c, s, timeout, now, expired, t);
    HeldDistinct(c, t, timeout, expired);
    forall id | id in c.meta
      ensures id in Ids(expired) <==> c.meta[id].task.status.Running? && c.meta[id].updated + timeout <= now
    {
      RowName(c, id);
      assert AgreeAt(c, s, timeout, {}, id);
      if id in s.running {
        assert s.running[id] in expired <==> s.running[id].deadline <= now;
      }
    }
  }

  lemma HeldDistinct(c: Rows, s: Sched, timeout: int, leases: seq<Lease>)
    requires InHand(c, s, timeout, leases)
    ensures DistinctIds(leases)
  {}

  predicate JudgedLease(c: Rows, timeout: int, valid: seq<Lease>, seen: map<string, int>, l: Lease) {
    && l.taskID in c.meta && l.taskID in seen
    && (l in valid <==> seen[l.taskID] >= c.meta[l.taskID].updated + timeout)
  }

  /** The first loop so far: each lease looked at, and kept exactly if its time was up. */
  predicate Judged(c: Rows, timeout: int, looked: seq<Lease>, valid: seq<Lease>, seen: map<string, int>) {
    && seen.Keys == Ids(looked)
    && (forall l :: l in valid ==> l in looked)
    && (forall l :: l in looked ==> JudgedLease(c, timeout, valid, seen, l))
  }

  lemma JudgedNone(c: Rows, timeout: int)
    ensures Judged(c, timeout, [], [], map[])
  {}

  lemma JudgedMore(
    c: Rows, timeout: int, looked: seq<Lease>, valid: seq<Lease>, seen: map<string, int>, l: Lease, now: int)
    requires Judged(c, timeout, looked, valid, seen) && l.taskID in c.meta && l.taskID !in Ids(looked)
    ensures var due := c.meta[l.taskID].updated + timeout;
            Judged(c, timeout, looked + [l], if now >= due then valid + [l] else valid, seen[l.taskID := now])
  {
    assert Ids(looked + [l]) == Ids(looked) + {l.taskID};
    forall k | k in looked ensures k.taskID != l.taskID {
      assert k.taskID in Ids(looked);
    }
  }

  /** The first loop goes on with lease `i`: dropped and tracked again, or kept. */
  lemma TriageStep(c: Rows, s: Sched, timeout: int, valid: seq<Lease>, expired: seq<Lease>, i: nat)
    requires i < |expired| && InHand(c, s, timeout, valid + expired[i..]) && timeout > 0
    ensures var id := expired[i].taskID;
            id in c.meta && c.meta[id].updated > 0
            && InHand(c, Tracked(s, id, DeadlineOf(c.meta[id], timeout), c.meta[id].task.leaseEpoch), timeout,
                      valid + expired[i + 1..])
            && InHand(c, s, timeout, valid + [expired[i]] + expired[i + 1..])
  {
    hide InHand, Tracked, DeadlineOf;
    var held := valid + expired[i..];
    HeldRow(c, s, timeout, held, |valid|);
    assert held[|valid|] == expired[i];
    StepTrack(c, s, timeout, held, |valid|);
    assert Without(held, |valid|) == valid + expired[i + 1..];
    assert valid + [expired[i]] + expired[i + 1..] == held;
  }

  lemma JudgeStep(
    c: Rows, timeout: int, expired: seq<Lease>, i: nat, valid: seq<Lease>, seen: map<string, int>, now: int)
    requires i < |expired| && Judged(c, timeout, expired[..i], valid, seen) && DistinctIds(expired)
    requires expired[i].taskID in c.meta
    ensures var due := c.meta[expired[i].taskID].updated + timeout;
            Judged(c, timeout, expired[..i + 1], if now >= due then valid + [expired[i]] else valid,
                   seen[expired[i].taskID := now])
  {
    hide Judged, DistinctIds;
    Unlooked(expired, i);
    JudgedMore(c, timeout, expired[..i], valid, seen, expired[i], now);
    assert expired[..i + 1] == expired[..i] + [expired[i]];
  }

  /** The second loop so far: one redelivery record for each lease. */
  predicate LoggedFor(a: Rows, b: Rows, leases: seq<Lease>) {
    && a.meta == b.meta && a.logs.Keys == b.logs.Keys
    && forall id :: id in a.logs ==>
         b.logs[id] == if id in Ids(leases) && id in a.meta then a.logs[id] + [Redelivered(a.meta[id].task.leaseEpoch)]
                       else a.logs[id]
  }

  lemma LoggedNone(a: Rows)
    ensures LoggedFor(a, a, [])
  {}

  lemma LoggedMore(a: Rows, b: Rows, leases: seq<Lease>, j: nat)
    requires j < |leases| && LoggedFor(a, b, leases[..j]) && DistinctIds(leases)
    requires leases[j].taskID in b.meta && leases[j].taskID in b.logs
    ensures var id := leases[j].taskID;
            LoggedFor(a, LogTo(b, id, Redelivered(b.meta[id].task.leaseEpoch)), leases[..j + 1])
  {
    hide DistinctIds, LoggedFor;
    Unlooked(leases, j);
    assert leases[..j + 1] == leases[..j] + [leases[j]];
    LoggedOne(a, b, leases[..j], leases[j]);
  }

  lemma LoggedOne(a: Rows, b: Rows, leases: seq<Lease>, l: Lease)
    requires LoggedFor(a, b, leases) && l.taskID in b.meta && l.taskID in b.logs && l.taskID !in Ids(leases)
    ensures LoggedFor(a, LogTo(b, l.taskID, Redelivered(b.meta[l.taskID].task.leaseEpoch)), leases + [l])
  {
    assert Ids(leases + [l]) == Ids(leases) + {l.taskID};
    TaskRuns.NeverKeyed(b.logs[l.taskID], Redelivered(b.meta[l.taskID].task.leaseEpoch));
  }

  /** The third loop so far: each lease looked at again. */
  predicate RequeuedFor(a: Rows, b: Rows, timeout: int, leases: seq<Lease>, again: map<string, int>) {
    && a.meta.Keys == b.meta.Keys && a.logs == b.logs && again.Keys == Ids(leases)
    && forall id :: id in a.meta ==>
         b.meta[id] == if id in again && a.meta[id].updated + timeout <= again[id]
                       then RequeuedRow(a.meta[id], again[id]) else a.meta[id]
  }

  lemma RequeuedNone(a: Rows, timeout: int)
    ensures RequeuedFor(a, a, timeout, [], map[])
  {}

  lemma RequeuedMore(
    a: Rows, b: Rows, c: Rows, timeout: int, leases: seq<Lease>, again: map<string, int>, j: nat, now: int)
    requires j < |leases| && RequeuedFor(a, b, timeout, leases[..j], again) && DistinctIds(leases)
    requires leases[j].taskID in b.meta && c.logs == b.logs
    requires var id := leases[j].taskID;
             c.meta == if b.meta[id].updated + timeout <= now then b.meta[id := RequeuedRow(b.meta[id], now)]
                       else b.meta
    ensures RequeuedFor(a, c, timeout, leases[..j + 1], again[leases[j].taskID := now])
  {
    hide RequeuedRow, DistinctIds;
    Unlooked(leases, j);
    assert leases[..j + 1] == leases[..j] + [leases[j]];
    assert Ids(leases[..j + 1]) == Ids(leases[..j]) + {leases[j].taskID};
  }

  lemma Unlooked(leases: seq<Lease>, i: nat)
    requires DistinctIds(leases) && i < |leases|
    ensures leases[i].taskID !in Ids(leases[..i])
  {
    forall l | l in leases[..i] ensures l.taskID != leases[i].taskID {}
  }

  /** The three loops together; `done` leases were logged before the refusal at `done`. */
  lemma PassTogether(
    a: Rows, b: Rows, c: Rows, timeout: int, expired: seq<Lease>, valid: seq<Lease>, done: nat, p: Pass)
    requires a.meta.Keys == a.logs.Keys
    requires AllDue(a, timeout, p.now, expired)
    requires Judged(a, timeout, expired, valid, p.seen) && DistinctIds(valid) && DistinctIds(expired)
    requires done <= |valid| && LoggedFor(a, b, valid[..done])
    requires if p.refused.None? then done == |valid| && RequeuedFor(b, c, timeout, valid, p.again)
             else done < |valid| && p.refused == Some(valid[done].taskID) && c == b && p.again == map[]
    ensures PassedOver(a, c, timeout, p)
  {
    hide DistinctIds;
    if p.refused.Some? {
      Unlooked(valid, done);
      assert valid[done] in valid;
    } else {
      assert valid[..done] == valid;
    }
    forall id | id in a.meta ensures PassedAt(a, c, timeout, p, id) {
      PassOne(a, b, c, timeout, expired, valid, done, p, id);
    }
  }

  lemma PassOne(
    a: Rows, b: Rows, c: Rows, timeout: int, expired: seq<Lease>, valid: seq<Lease>, done: nat, p: Pass, id: string)
    requires a.meta.Keys == a.logs.Keys && id in a.meta
    requires id in Ids(expired) <==> a.meta[id].task.status.Running? && a.meta[id].updated + timeout <= p.now
    requires Judged(a, timeout, expired, valid, p.seen) && DistinctIds(expired)
    requires done <= |valid| && LoggedFor(a, b, valid[..done])
    requires if p.refused.None? then valid[..done] == valid && RequeuedFor(b, c, timeout, valid, p.again)
             else done < |valid| && p.refused == Some(valid[done].taskID) && c == b && p.again == map[]
                  && valid[done].taskID !in Ids(valid[..done])
    ensures id in c.meta && id in c.logs && PassedAt(a, c, timeout, p, id)
  {
    InValid(a, timeout, expired, valid, p.seen, id);
    if id in Ids(valid[..done]) {
      var l :| l in valid[..done] && l.taskID == id;
      assert l in valid;
    }
  }

  lemma InValid(c: Rows, timeout: int, looked: seq<Lease>, valid: seq<Lease>, seen: map<string, int>, id: string)
    requires Judged(c, timeout, looked, valid, seen) && id in c.meta && DistinctIds(looked)
    ensures id in Ids(valid) <==> id in seen && seen[id] >= c.meta[id].updated + timeout
  {
    if id in seen {
      var l :| l in looked && l.taskID == id;
      var i :| 0 <= i < |looked| && looked[i] == l;
      forall k | k in looked && k.taskID == id ensures k == l {
        var j :| 0 <= j < |looked| && looked[j] == k;
      }
    }
  }

  /** So a lease whose time is up by every reading is requeued, queued and fenced in the log,
      unless an append was refused. */
  lemma DueIsRequeued(a: Rows, b: Rows, s: Sched, timeout: int, p: Pass, id: string)
    requires PassedOver(a, b, timeout, p) && InStep(b, s, timeout, {})
    requires id in a.meta && a.meta[id].task.status.Running? && p.refused.None?
    requires var due := a.meta[id].updated + timeout;
             due <= p.now && (id in p.seen ==> due <= p.seen[id]) && (id in p.again ==> due <= p.again[id])
    ensures id in b.meta && b.meta[id].task.status.Queued? && id in s.queued
    ensures Fenced(b, Lease(id, 0, a.meta[id].task.leaseEpoch))
  {
    hide KeyedOnce, Ledger, Unfenced;
    assert AgreeAt(b, s, timeout, {}, id) && PassedAt(a, b, timeout, p, id);
    GrowFence(a.logs[id], Redelivered(a.meta[id].task.leaseEpoch), a.meta[id].task.leaseEpoch);
  }

  /** One whose time is not up by the first or the second reading stays tracked under its
      deadline, and nothing is logged for it. */
  lemma NotDueIsKept(a: Rows, b: Rows, s: Sched, timeout: int, p: Pass, id: string)
    requires PassedOver(a, b, timeout, p) && InStep(b, s, timeout, {}) && timeout > 0
    requires id in a.meta && a.meta[id].task.status.Running? && a.meta[id].updated > 0
    requires var due := a.meta[id].updated + timeout; p.now < due || (id in p.seen && p.seen[id] < due)
    ensures id in a.logs && id in b.meta && id in b.logs && b.meta[id] == a.meta[id] && b.logs[id] == a.logs[id]
    ensures id in s.running
            && s.running[id] == Lease(id, a.meta[id].updated + timeout, a.meta[id].task.leaseEpoch)
  {
    hide KeyedOnce, Ledger, Unfenced;
    assert AgreeAt(b, s, timeout, {}, id) && PassedAt(a, b, timeout, p, id);
  }

  // ---- What polling answers ---------------------------------------------------------------------

  /** The tasks whose mailbox and worker are ready. */
  function ReadyOnly(ready: set<string>): Check {
    (m: SchedMeta) => if m.taskID in ready then Assign else Skip
  }

  lemma SameChecks(s: Sched, key: QueueKey, turn: nat, a: Check, b: Check, id: string)
    requires forall x :: x in s.queued && x in s.taskMeta ==> a(s.taskMeta[x]) == b(s.taskMeta[x])
    ensures Offered(s, key, turn, a, id) <==> Offered(s, key, turn, b, id)
  {
    hide OnItsTurn;
    forall i | 0 <= i < |Line(s, key)| ensures OfferedAt(s, key, turn, a, i) <==> OfferedAt(s, key, turn, b, i) {
      SameCheckAt(s, key, turn, a, b, i);
    }
  }

  lemma SameCheckAt(s: Sched, key: QueueKey, turn: nat, a: Check, b: Check, i: nat)
    requires forall x :: x in s.queued && x in s.taskMeta ==> a(s.taskMeta[x]) == b(s.taskMeta[x])
    requires i < |Line(s, key)|
    ensures OfferedAt(s, key, turn, a, i) <==> OfferedAt(s, key, turn, b, i)
  {}

  lemma SameAnswers(s: Sched, w: Snapshot, a: Check, b: Check, order: seq<QueueKey>, r: Option<SchedMeta>)
    requires forall x :: x in s.queued && x in s.taskMeta ==> a(s.taskMeta[x]) == b(s.taskMeta[x])
    requires Answers(s, w, a, order, r)
    ensures Answers(s, w, b, order, r)
  {
    hide Offered;
    forall key, turn, id ensures Offered(s, key, turn, a, id) <==> Offered(s, key, turn, b, id) {
      SameChecks(s, key, turn, a, b, id);
    }
  }

  /** While scheduler and metadata agree, the check assigns every queued task that is ready. */
  lemma ChecksReady(c: Rows, s: Sched, home: map<string, QueueKey>, timeout: int, ready: set<string>, id: string)
    requires Agree(c, s, timeout, {}) && Conserved(s, home) && c.meta.Keys == c.specs.Keys && id in s.queued
    ensures id in s.taskMeta && s.taskMeta[id].taskID == id
            && Checking(c, ready)(s.taskMeta[id]) == ReadyOnly(ready)(s.taskMeta[id])
  {
    assert AgreeAt(c, s, timeout, {}, id);
    assert Homed(s, home, id);
  }

  type Time = t: int | t > 0 witness 1

  /** What one round of polling reads: the worker's actors and the numbers they await, the model
      queues the ranking looks at and returns, the tasks that are ready, and the clock. */
  datatype Look = Look(
    actors: seq<string>, nextSeq: map<string, nat>, inspected: seq<ModelKey>, ranked: seq<ModelKey>,
    ready: set<string>, now: Time)

  function ViewOf(worker: string, look: Look): Snapshot {
    Snapshot(worker, look.actors, look.nextSeq)
  }

  /** A round answers with the first ready task at its turn that stands first in its queue, in
      the source's order of queues - or with nothing, and then there is none. */
  ghost predicate Served(s: Sched, worker: string, look: Look, r: Option<string>) {
    var w := ViewOf(worker, look);
    match r
    case None => Answers(s, w, ReadyOnly(look.ready), Order(w, look.ranked), None)
    case Some(id) =>
      id in s.taskMeta && Answers(s, w, ReadyOnly(look.ready), Order(w, look.ranked), Some(s.taskMeta[id]))
  }

  function PickedID(r: Option<SchedMeta>): Option<string> {
    if r.None? then None else Some(r.value.taskID)
  }

  lemma PollAnswers(c: Rows, s: Sched, home: map<string, QueueKey>, timeout: int, worker: string, look: Look)
    requires InStep(c, s, timeout, {}) && Conserved(s, home) && worker != ""
    ensures var r := Assigned(s, ViewOf(worker, look), look.inspected, look.ranked, Checking(c, look.ready));
            Served(s, worker, look, PickedID(r.1)) && (r.1.None? ==> Served(r.0, worker, look, None))
  {
    hide Agree, KeyedOnce, KeptAt, Assigned, Answers, Conserved, Checking, ReadyOnly, Separate, Handout, SameOffers,
      Trims, StillAwaits;
    var w, ready, check := ViewOf(worker, look), look.ready, Checking(c, look.ready);
    var order, r := Order(w, look.ranked), Assigned(s, w, look.inspected, look.ranked, check);
    LedgerKeys(c);
    ReadyEverywhere(c, s, home, timeout, ready);
    NothingDropped(c, s, home, timeout, ready);
    AssignAnswers(s, w, look.inspected, look.ranked, check);
    SameAnswers(s, w, check, ReadyOnly(ready), order, r.1);
    AssignConserves(s, home, w, look.inspected, look.ranked, check);
    HandedOut(s, r.0, r.1, check);
    if r.1.None? {
      AssignTrims(s, home, w, look.inspected, look.ranked, check);
      HandoutAgrees(c, s, home, timeout, ready, r.0, r.1);
      ReadyEverywhere(c, r.0, home, timeout, ready);
      StillNothing(s, r.0, w, check, order);
      SameAnswers(r.0, w, check, ReadyOnly(ready), order, None);
    }
  }

  lemma HandedOut(s: Sched, t: Sched, r: Option<SchedMeta>, check: Check)
    requires Handout(s, t, r, check)
    ensures r.Some? ==> r.value.taskID in s.taskMeta && s.taskMeta[r.value.taskID] == r.value
  {}

  /** Handing out one task takes it off the front of its queue, and nothing from any other. */
  ghost predicate TookOne(s: Sched, t: Sched, id: string) {
    && id in s.queued && t.queued == s.queued - {id}
    && forall key :: TrimAt(s, t, key)
  }

  lemma StepTakes(
    c: Rows, s: Sched, home: map<string, QueueKey>, timeout: int, worker: string, look: Look, deadline: int, epoch: nat)
    requires InStep(c, s, timeout, {}) && Conserved(s, home)
    ensures var r := Assigned(s, ViewOf(worker, look), look.inspected, look.ranked, Checking(c, look.ready));
            r.1.Some? ==> TookOne(s, Tracked(r.0, r.1.value.taskID, deadline, epoch), r.1.value.taskID)
  {
    hide Agree, KeyedOnce, Conserved, Assigned, Handout, Checking, Trims, StillAwaits, KeptAt;
    var w, check := ViewOf(worker, look), Checking(c, look.ready);
    var r := Assigned(s, w, look.inspected, look.ranked, check);
    LedgerKeys(c);
    AssignConserves(s, home, w, look.inspected, look.ranked, check);
    AssignTrims(s, home, w, look.inspected, look.ranked, check);
    HandoutAgrees(c, s, home, timeout, look.ready, r.0, r.1);
    if r.1.Some? {
      TrimsEach(s, r.0, r.1);
      TrackedLines(s, r.0, r.1.value.taskID, deadline, epoch);
      QueuedOnce(s, r.0, r.1, check);
    }
  }

  lemma QueuedOnce(s: Sched, t: Sched, r: Option<SchedMeta>, check: Check)
    requires Handout(s, t, r, check)
    ensures r.Some? ==> r.value.taskID in s.queued
  {}

  lemma TrimsEach(s: Sched, t: Sched, r: Option<SchedMeta>)
    requires Trims(s, t, r)
    ensures forall key :: TrimAt(s, t, key)
  {
    hide TrimAt;
  }

  lemma TrackedLines(s: Sched, t: Sched, id: string, deadline: int, epoch: nat)
    requires forall key :: TrimAt(s, t, key)
    ensures forall key :: TrimAt(s, Tracked(t, id, deadline, epoch), key)
    ensures Tracked(t, id, deadline, epoch).queued == t.queued
  {
    hide TrimAt;
    forall key ensures TrimAt(s, Tracked(t, id, deadline, epoch), key) {
      TrackedLine(s, t, Tracked(t, id, deadline, epoch), key);
    }
  }

  lemma TrackedLine(s: Sched, t: Sched, u: Sched, key: QueueKey)
    requires TrimAt(s, t, key) && u.lines == t.lines && u.queued == t.queued
    ensures TrimAt(s, u, key)
  {
    assert Line(u, key) == Line(t, key);
  }

  /** The task stands before `id` in the line. */
  predicate InFront(line: seq<string>, other: string, id: string) {
    exists i, j :: 0 <= i < j < |line| && line[i] == other && line[j] == id
  }

  /** An actor with a known next number takes only that one from its queue, and calls without
      a number. */
  predicate AtTurn(look: Look, key: QueueKey, task: Task) {
    key.ActorQueue? && key.actor in look.nextSeq && look.nextSeq[key.actor] > 0 && task.commandSeq > 0 ==>
      task.commandSeq == look.nextSeq[key.actor]
  }

  /** So a queued task that is ready and at its turn, in a queue the worker serves, is left
      waiting by a round with nothing to hand out only behind a queued task in its queue that
      is not ready or not at its turn. */
  lemma LeftWaiting(c: Rows, s: Sched, timeout: int, worker: string, look: Look, id: string)
    requires InStep(c, s, timeout, {}) && Served(s, worker, look, None)
    requires id in c.meta && c.meta[id].task.status.Queued? && id in look.ready
    requires QueueOf(c.meta[id].task.identity) in Order(ViewOf(worker, look), look.ranked)
    requires AtTurn(look, QueueOf(c.meta[id].task.identity), c.meta[id].task)
    ensures var key := QueueOf(c.meta[id].task.identity);
            exists other :: InFront(Line(s, key), other, id) && Blocks(c, look, key, other)
  {
    hide KeyedOnce, Ledger, OfferedAt, Idle, Order, Live, AgreeAt, ReadyOnly, QueueOf, AtTurn;
    var w, key := ViewOf(worker, look), QueueOf(c.meta[id].task.identity);
    var line, turn, check := Line(s, key), TurnAt(w, key), ReadyOnly(look.ready);
    QueuedLive(c, s, timeout, id);
    var k :| 0 <= k < |Order(w, look.ranked)| && Order(w, look.ranked)[k] == key;
    assert Idle(s, key, turn, check);
    var i :| 0 <= i < |line| && line[i] == id;
    Standing(c, s, timeout, worker, look, key, id);
    var j := FirstBlocker(s, key, turn, check, i);
    Standing(c, s, timeout, worker, look, key, line[j]);
    assert InFront(line, line[j], id);
  }

  /** A queued task that is not ready or not at its turn. */
  predicate Blocks(c: Rows, look: Look, key: QueueKey, id: string) {
    id in c.meta && c.meta[id].task.status.Queued? && !(id in look.ready && AtTurn(look, key, c.meta[id].task))
  }

  lemma QueuedLive(c: Rows, s: Sched, timeout: int, id: string)
    requires Agree(c, s, timeout, {}) && id in c.meta && c.meta[id].task.status.Queued?
    ensures var key := QueueOf(c.meta[id].task.identity); id in Line(s, key) && Live(s, key, id)
  {
    assert AgreeAt(c, s, timeout, {}, id);
  }

  /** A live entry may be handed out unless its task blocks. */
  lemma Standing(c: Rows, s: Sched, timeout: int, worker: string, look: Look, key: QueueKey, id: string)
    requires Agree(c, s, timeout, {}) && Live(s, key, id)
    ensures (OnItsTurn(s.taskMeta[id], TurnAt(ViewOf(worker, look), key))
             && ReadyOnly(look.ready)(s.taskMeta[id]) == Assign) <==> !Blocks(c, look, key, id)
  {
    hide QueueOf;
    assert AgreeAt(c, s, timeout, {}, id);
  }

  /** In a queue with nothing on offer the first live entry blocks. */
  lemma FirstBlocker(s: Sched, key: QueueKey, turn: nat, check: Check, i: nat) returns (j: nat)
    requires Idle(s, key, turn, check) && i < |Line(s, key)| && Live(s, key, Line(s, key)[i])
    requires OnItsTurn(s.taskMeta[Line(s, key)[i]], turn) && check(s.taskMeta[Line(s, key)[i]]) == Assign
    ensures j < i && Live(s, key, Line(s, key)[j])
    ensures !(OnItsTurn(s.taskMeta[Line(s, key)[j]], turn) && check(s.taskMeta[Line(s, key)[j]]) == Assign)
  {
    hide OnItsTurn;
    var line := Line(s, key);
    j := 0;
    while !Live(s, key, line[j])
      invariant j <= i && forall k :: 0 <= k < j ==> !Live(s, key, line[k])
      decreases i - j
    {
      j := j + 1;
    }
    assert !OfferedAt(s, key, turn, check, j) by {
      assert !Offered(s, key, turn, check, line[j]);
    }
  }

  lemma StillNothing(s: Sched, t: Sched, w: Snapshot, check: Check, order: seq<QueueKey>)
    requires Later(s, t, w, check) && Answers(s, w, check, order, None)
    ensures Answers(t, w, check, order, None)
  {
    hide IdleUpTo, Later;
    IdleLater(s, t, w, check, order, |order|);
  }

  lemma ReadyEverywhere(c: Rows, s: Sched, home: map<string, QueueKey>, timeout: int, ready: set<string>)
    requires Agree(c, s, timeout, {}) && Conserved(s, home) && c.meta.Keys == c.specs.Keys
    ensures forall x :: x in s.queued && x in s.taskMeta ==>
              Checking(c, ready)(s.taskMeta[x]) == ReadyOnly(ready)(s.taskMeta[x])
  {
    hide Agree, Conserved, Checking, ReadyOnly;
    forall x | x in s.queued && x in s.taskMeta
      ensures Checking(c, ready)(s.taskMeta[x]) == ReadyOnly(ready)(s.taskMeta[x])
    {
      ChecksReady(c, s, home, timeout, ready, x);
    }
  }

  lemma NothingDropped(c: Rows, s: Sched, home: map<string, QueueKey>, timeout: int, ready: set<string>)
    requires Agree(c, s, timeout, {}) && Conserved(s, home) && c.meta.Keys == c.specs.Keys
    ensures Separate(s, Checking(c, ready))
  {
    hide Agree, Conserved, Checking;
    forall a, b, id | a != b && id in Line(s, a) && id in Line(s, b) && id in s.taskMeta && id in s.queued
      ensures Checking(c, ready)(s.taskMeta[id]) != Drop
    {
      NoDrop(c, s, home, timeout, ready, id);
    }
  }

  // ---- Batches, submissions, restarts -----------------------------------------------------

  /** The next lease of a task, which changes nothing else. */
  predicate LeasedTo(before: Task, worker: string, after: Task) {
    && after.status.Running? && after.worker == worker && after.leaseEpoch == before.leaseEpoch + 1
    && after == before.(status := after.status, worker := after.worker, leaseEpoch := after.leaseEpoch)
  }

  /** A poll leases distinct queued tasks, each exactly one epoch further, and nothing else. */
  predicate Dispatched(a: Rows, b: Rows, worker: string, looks: nat -> Look, tasks: seq<Task>) {
    && b == a.(meta := b.meta) && a.meta.Keys == b.meta.Keys
    && (forall i, j :: 0 <= i < j < |tasks| ==> tasks[i].taskID != tasks[j].taskID)
    && (forall k :: 0 <= k < |tasks| ==> DispatchedAt(a, b, worker, looks(k), tasks[k]))
    && (forall id :: id in a.meta && id !in TaskIDs(tasks) ==> b.meta[id] == a.meta[id])
  }

  function TaskIDs(tasks: seq<Task>): set<string> {
    set t | t in tasks :: t.taskID
  }

  lemma TaskIDsMore(tasks: seq<Task>, t: Task)
    ensures TaskIDs(tasks + [t]) == TaskIDs(tasks) + {t.taskID}
    ensures forall k :: 0 <= k < |tasks| ==> tasks[k].taskID in TaskIDs(tasks)
  {}

  /** The row of a leased task says since when. */
  predicate DispatchedAt(a: Rows, b: Rows, worker: string, look: Look, t: Task) {
    && t.taskID in a.meta && a.meta[t.taskID].task.status.Queued? && t.taskID in look.ready
    && LeasedTo(a.meta[t.taskID].task, worker, t)
    && t.taskID in b.meta && b.meta[t.taskID] == Row(t, look.now, a.meta[t.taskID].created)
  }

  lemma DispatchMore(a: Rows, b: Rows, c: Rows, worker: string, looks: nat -> Look, tasks: seq<Task>, t: Task)
    requires Dispatched(a, b, worker, looks, tasks) && DispatchedAt(b, c, worker, looks(|tasks|), t)
    requires c == b.(meta := b.meta[t.taskID := c.meta[t.taskID]])
    ensures Dispatched(a, c, worker, looks, tasks + [t])
  {
    hide DispatchedAt, TaskIDs;
    var more := tasks + [t];
    StillQueued(b, c, worker, looks(|tasks|), t);
    NotDispatched(a, b, worker, looks, tasks, t.taskID);
    forall k | 0 <= k < |tasks| ensures tasks[k].taskID != t.taskID && DispatchedAt(a, c, worker, looks(k), tasks[k]) {
      DispatchKept(a, b, c, worker, looks(k), tasks[k], t.taskID);
    }
    DispatchNew(a, b, c, worker, looks(|tasks|), t);
    TaskIDsMore(tasks, t);
  }

  lemma NotDispatched(a: Rows, b: Rows, worker: string, looks: nat -> Look, tasks: seq<Task>, id: string)
    requires Dispatched(a, b, worker, looks, tasks) && id in b.meta && b.meta[id].task.status.Queued?
    ensures id !in TaskIDs(tasks)
  {
    if t :| t in tasks && t.taskID == id {
      var k :| 0 <= k < |tasks| && tasks[k] == t;
      assert DispatchedAt(a, b, worker, looks(k), t);
    }
  }

  lemma StillQueued(a: Rows, b: Rows, worker: string, look: Look, t: Task)
    requires DispatchedAt(a, b, worker, look, t)
    ensures t.taskID in a.meta && a.meta[t.taskID].task.status.Queued?
  {}

  /** Leasing one more task leaves an earlier one alone. */
  lemma DispatchKept(a: Rows, b: Rows, c: Rows, worker: string, look: Look, t: Task, id: string)
    requires DispatchedAt(a, b, worker, look, t) && id in b.meta && b.meta[id].task.status.Queued?
    requires id in c.meta && c.meta == b.meta[id := c.meta[id]]
    ensures t.taskID != id && DispatchedAt(a, c, worker, look, t)
  {}

  lemma DispatchNew(a: Rows, b: Rows, c: Rows, worker: string, look: Look, t: Task)
    requires DispatchedAt(b, c, worker, look, t)
    requires t.taskID in a.meta && a.meta[t.taskID] == b.meta[t.taskID]
    ensures DispatchedAt(a, c, worker, look, t)
  {}

  /** How far a restart has come: these rows are replay's, and their keys are theirs. */
  ghost predicate Restoring(a: Rows, c: Rows, loaded: set<string>, order: seq<string>, n: nat)
    requires n <= |order|
  {
    && c.marks == None && (forall id :: id in c.meta <==> id in order[..n])
    && (forall id :: id in c.meta ==> RestoredAs(a, c, loaded, id))
  }

  ghost predicate RestoredAs(a: Rows, c: Rows, loaded: set<string>, id: string)
    requires id in c.meta
  {
    && id in a.meta && id in a.logs && id in a.bases && id in c.logs && id in c.bases
    && c.logs[id] == a.logs[id] && c.bases[id] == StartFrom(a.bases[id], id in loaded)
    && c.meta[id].task == FinalTask(Replayed(c.bases[id], a.logs[id]))
    && c.meta[id].task.identity == a.meta[id].task.identity
  }

  lemma FreshKey(a: Rows, c: Rows, loaded: set<string>, id: string)
    requires KeyedOnce(a) && KeyedOnce(c) && id in a.meta && id !in c.meta
    requires forall other :: other in c.meta ==> RestoredAs(a, c, loaded, other)
    ensures KeyOf(a, id) !in c.byKey
  {
    hide Replayed, StartFrom;
    forall key | key in c.byKey ensures key != KeyOf(a, id) {
      assert RestoredAs(a, c, loaded, c.byKey[key]);
    }
  }

  /** One more row, replayed from its base. */
  function RestoredRows(c: Rows, id: string, base: Base, log: seq<Record>, now: int, spec: Spec): Rows {
    Added(c, id, RestoredRow(base, log, now), log, spec, base)
  }

  function RestoredSched(s: Sched, row: Row): Sched {
    if row.task.status.Queued? then Enqueued(s, MetaOf(row)) else s
  }

  /** Restoring one more stream. */
  lemma StepRestore(
    a: Rows, c: Rows, s: Sched, timeout: int, loaded: set<string>, order: seq<string>, n: nat, now: int, spec: Spec)
    requires Ledger(a) && KeyedOnce(a) && InStep(c, s, timeout, {}) && n < |order| && now > 0
    requires Restoring(a, c, loaded, order, n) && order[n] in a.meta && order[n] !in order[..n]
    requires order[n] in a.logs && order[n] in a.bases
    ensures var id, log := order[n], a.logs[order[n]];
            var base := StartFrom(a.bases[id], id in loaded);
            var row := RestoredRow(base, log, now);
            && InStep(RestoredRows(c, id, base, log, now, spec), RestoredSched(s, row), timeout, {})
            && Restoring(a, RestoredRows(c, id, base, log, now, spec), loaded, order, n + 1)
            && !row.task.status.Running?
  {
    hide Ledger, KeyedOnce, Agree, Replayed, Kept, Progress, StartFrom, RestoredAs, Enqueued, MetaOf, FinalTask, KeyOf;
    var id, log := order[n], a.logs[order[n]];
    var base := StartFrom(a.bases[id], id in loaded);
    var row := RestoredRow(base, log, now);
    RowOf(a, id);
    RestoreKept(id, a.meta[id], log, a.bases[id], MarkOf(a.marks, id), id in loaded, now);
    FreshKey(a, c, loaded, id);
    SameKeyed(a, id, row);
    StepAdd(c, s, timeout, id, row, log, spec, base);
    var d := RestoredRows(c, id, base, log, now, spec);
    assert order[..n + 1] == order[..n] + [id];
    forall other | other in d.meta ensures RestoredAs(a, d, loaded, other) {
      RestoredMore(a, c, loaded, id, now, spec, other);
    }
  }

  lemma SameKeyed(a: Rows, id: string, row: Row)
    requires id in a.meta && row.task.identity == a.meta[id].task.identity
    ensures row.task.identity.idemKey == KeyOf(a, id)
  {}

  lemma RestoredMore(a: Rows, c: Rows, loaded: set<string>, id: string, now: int, spec: Spec, other: string)
    requires id in a.meta && id in a.logs && id in a.bases && id !in c.meta
    requires var base := StartFrom(a.bases[id], id in loaded);
             RestoredRow(base, a.logs[id], now).task.identity == a.meta[id].task.identity
    requires other == id || (other in c.meta && RestoredAs(a, c, loaded, other))
    ensures var base := StartFrom(a.bases[id], id in loaded);
            RestoredAs(a, RestoredRows(c, id, base, a.logs[id], now, spec), loaded, other)
  {
    hide Replayed, StartFrom, FinalTask;
  }

  /** Nothing is restored yet. */
  lemma StepEmpty(a: Rows, timeout: int, loaded: set<string>, order: seq<string>)
    ensures InStep(NO_ROWS, EMPTY_SCHED, timeout, {}) && Restoring(a, NO_ROWS, loaded, order, 0)
  {
    forall id ensures AgreeAt(NO_ROWS, EMPTY_SCHED, timeout, {}, id) {}
  }

  lemma RestoredAll(a: Rows, c: Rows, loaded: set<string>, order: seq<string>)
    requires Restoring(a, c, loaded, order, |order|) && Ledger(a) && Ledger(c)
    requires forall id :: id in a.logs <==> id in order
    ensures c.meta.Keys == a.meta.Keys && c.logs == a.logs
    ensures forall id :: id in c.meta ==> RestoredAs(a, c, loaded, id)
  {
    hide Ledger, RestoredAs;
    LedgerKeys(a);
    LedgerKeys(c);
    assert order[..|order|] == order;
    forall id | id in c.meta ensures id in a.logs && id in c.logs && c.logs[id] == a.logs[id] {
      RestoredLog(a, c, loaded, id);
    }
  }

  lemma RestoredLog(a: Rows, c: Rows, loaded: set<string>, id: string)
    requires id in c.meta && RestoredAs(a, c, loaded, id)
    ensures id in a.logs && id in c.logs && c.logs[id] == a.logs[id]
  {}

  /** What survives a restart: every settled row that its base is or the stream carries - as
      logged - and every other task as queued work. */
  lemma RestartSurvivors(a: Rows, c: Rows, loaded: set<string>)
    requires Ledger(a) && c.meta.Keys == a.meta.Keys
    requires forall id :: id in c.meta ==> RestoredAs(a, c, loaded, id)
    ensures forall id :: id in a.meta ==> SurvivesIn(a, c, loaded, id)
  {
    hide Replayed, KeptAt, FinalTask, Survives, StartFrom, TaskRuns.Steady;
    forall id | id in a.meta ensures SurvivesIn(a, c, loaded, id) {
      RowOf(a, id);
      assert RestoredAs(a, c, loaded, id);
      SurvivesRestart(LiveOf(a, id), id in loaded);
    }
  }

  ghost predicate SurvivesIn(a: Rows, c: Rows, loaded: set<string>, id: string) {
    && id in a.meta && id in a.bases && id in c.meta && id in c.bases && id in c.logs
    && c.bases[id] == StartFrom(a.bases[id], id in loaded)
    && Survives(a.meta[id].task, c.bases[id], c.logs[id], c.meta[id].task)
  }

  ghost predicate Survives(before: Task, base: Base, log: seq<Record>, after: Task) {
    if base.row.status.Terminal() then after == before
    else if before.status.Terminal() && Carried(base, log, before) then after == Logged(base, before)
    else after == before.(status := Queued, worker := "", leaseEpoch := after.leaseEpoch,
                          result := EMPTY, error := "", commandSeq := base.row.commandSeq)
         && after.leaseEpoch <= before.leaseEpoch
  }

  lemma SurvivesRestart(s: TaskRuns.Live, loaded: bool)
    requires TaskRuns.Steady(s)
    ensures var base := StartFrom(s.base, loaded);
            Survives(s.task, base, s.log, FinalTask(Replayed(base, s.log)))
  {
    hide Sound, Replayed, Carried, FinalTask;
    SoundBoth(s.base, s.task, s.log);
    RestartReturns(StartFrom(s.base, loaded), s.task, s.log);
  }

  // ---- Checkpoints ------------------------------------------------------------------------------

  /** streamLastSeqs: the positions of all streams. */
  function Positions(logs: map<string, seq<Record>>): map<string, nat> {
    map id | id in logs :: |logs[id]|
  }

  function Marked(c: Rows): Rows {
    c.(marks := Some(Positions(c.logs)))
  }

  /** snapshotTasks: every row as it is now, with the position read before. */
  function Copied(c: Rows): Rows
    requires c.meta.Keys == c.bases.Keys
  {
    var marks := if c.marks.Some? then c.marks.value else map[];
    c.(bases := map id | id in c.meta ::
                  Base(c.meta[id].task, c.bases[id].spec, TailFrom(if id in marks then marks[id] else 0)),
       marks := None)
  }

  /** The agreement with the scheduler does not look at checkpoints. */
  lemma CheckpointAgrees(c: Rows, s: Sched, timeout: int, d: Rows)
    requires Agree(c, s, timeout, {}) && KeyedOnce(c) && d.meta == c.meta && d.byKey == c.byKey
    ensures Agree(d, s, timeout, {}) && KeyedOnce(d)
  {
    LogAgrees(c, s, timeout, {}, d);
    forall id | id in c.meta ensures KeyOf(d, id) == KeyOf(c, id) {}
  }

  lemma StepMark(c: Rows, s: Sched, timeout: int)
    requires InStep(c, s, timeout, {})
    ensures InStep(Marked(c), s, timeout, {})
  {
    hide Agree, KeyedOnce, TaskRuns.Steady;
    var d := Marked(c);
    CheckpointAgrees(c, s, timeout, d);
    forall id | id in d.meta ensures KeptAt(d, id) {
      RowOf(c, id);
      TaskRuns.PlainSteady(LiveOf(c, id), TaskRuns.ReadPosition);
    }
  }

  lemma CopiedRow(c: Rows, id: string)
    requires c.marks.Some? && c.meta.Keys == c.logs.Keys == c.bases.Keys && id in c.meta && KeptAt(c, id)
    ensures KeptAt(Copied(c), id)
  {
    hide TaskRuns.Steady;
    TaskRuns.PlainSteady(LiveOf(c, id), TaskRuns.CopyRow);
  }

  lemma StepCopy(c: Rows, s: Sched, timeout: int)
    requires InStep(c, s, timeout, {}) && c.marks.Some?
    ensures c.meta.Keys == c.bases.Keys && InStep(Copied(c), s, timeout, {})
  {
    hide Agree, KeyedOnce, KeptAt;
    LedgerKeys(c);
    var d := Copied(c);
    CheckpointAgrees(c, s, timeout, d);
    forall id | id in d.meta ensures KeptAt(d, id) {
      RowOf(c, id);
      CopiedRow(c, id);
    }
  }

  /** Checkpoints lose nothing: a row that full replay would settle comes back settled
      whichever of the two restarts takes place. */
  lemma RestartKeepsMore(c: Rows, s: Sched, timeout: int, id: string)
    requires InStep(c, s, timeout, {}) && id in c.meta
    ensures id in c.logs && id in c.bases
            && (Fold(INIT, c.logs[id]).status.Terminal() ==>
                  var task, other := c.meta[id].task, FinalTask(Replayed(c.bases[id], c.logs[id]));
                  task.status.Terminal() && (other == task || other == Logged(c.bases[id], task)))
  {
    hide Agree, KeyedOnce, TaskRestarts.Covers, Replayed, Fold;
    RowOf(c, id);
    if Fold(INIT, c.logs[id]).status.Terminal() {
      TaskRestarts.CheckpointKeepsMore(c.bases[id], c.meta[id].task, c.logs[id]);
    }
  }
}
