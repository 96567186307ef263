/** The live lease protocol of one task against its log
    (internal/control/service.go:640-827, internal/control/hardening.go:276-359,
    internal/metadata/memory_v2.go:366-530), and what a restart makes of that log
    (internal/control/bootstrap.go:25-94, internal/control/checkpoint.go:276-302). */
module TaskProtocol {
  import opened Basics
  import opened TaskLog
  import opened TaskKeys
  import opened TaskCheckpoint

  // ---- What a log says about a lease ------------------------------------------------------

  predicate HasStart(log: seq<Record>, e: nat) {
    exists k :: 0 <= k < |log| && log[k].Started? && log[k].epoch == e
  }

  predicate Unfenced(log: seq<Record>, e: nat) {
    forall k :: 0 <= k < |log| && log[k].Redelivered? ==> log[k].epoch < e
  }

  /** The lease was logged as started and never given up in the log. */
  predicate Durable(log: seq<Record>, e: nat) {
    HasStart(log, e) && Unfenced(log, e)
  }

  predicate Epoched(log: seq<Record>) {
    forall k :: 0 <= k < |log| && log[k].Names() ==> log[k].epoch >= 1
  }

  lemma GrowStart(log: seq<Record>, rec: Record, e: nat)
    ensures HasStart(log + [rec], e) <==> HasStart(log, e) || (rec.Started? && rec.epoch == e)
  {
    var more := log + [rec];
    if HasStart(log, e) {
      var k :| 0 <= k < |log| && log[k].Started? && log[k].epoch == e;
      assert more[k] == log[k];
    }
    if rec.Started? && rec.epoch == e {
      assert more[|log|] == rec;
    }
    if HasStart(more, e) {
      var k :| 0 <= k < |more| && more[k].Started? && more[k].epoch == e;
      assert k < |log| ==> log[k] == more[k];
    }
  }

  lemma GrowFence(log: seq<Record>, rec: Record, e: nat)
    ensures Unfenced(log + [rec], e) <==> Unfenced(log, e) && (rec.Redelivered? ==> rec.epoch < e)
  {
    var more := log + [rec];
    assert more[|log|] == rec;
    assert forall k :: 0 <= k < |log| ==> more[k] == log[k];
    if Unfenced(more, e) {
      forall k | 0 <= k < |log| && log[k].Redelivered? ensures log[k].epoch < e {
        assert more[k] == log[k];
      }
    }
  }

  /** A log says what its two parts say. */
  lemma SplitLog(log: seq<Record>, k: nat, e: nat)
    requires k <= |log|
    ensures HasStart(log, e) <==> HasStart(log[..k], e) || HasStart(log[k..], e)
    ensures Unfenced(log, e) <==> Unfenced(log[..k], e) && Unfenced(log[k..], e)
  {
    if HasStart(log, e) {
      var i :| 0 <= i < |log| && log[i].Started? && log[i].epoch == e;
      assert if i < k then log[..k][i] == log[i] else log[k..][i - k] == log[i];
    }
    if HasStart(log[..k], e) {
      var i :| 0 <= i < |log[..k]| && log[..k][i].Started? && log[..k][i].epoch == e;
      assert log[i] == log[..k][i];
    }
    if HasStart(log[k..], e) {
      var i :| 0 <= i < |log[k..]| && log[k..][i].Started? && log[k..][i].epoch == e;
      assert log[k + i] == log[k..][i];
    }
    if Unfenced(log[..k], e) && Unfenced(log[k..], e) {
      forall i | 0 <= i < |log| && log[i].Redelivered? ensures log[i].epoch < e {
        assert if i < k then log[..k][i] == log[i] else log[k..][i - k] == log[i];
      }
    }
  }

  // ---- Where a restart starts -----------------------------------------------------------------

  /** A restart replays the stream from record `from` on top of a row: a checkpointed one with
      the tail after the recorded position, or - full replay - the submitted one. */
  datatype Base = Base(row: Task, spec: Spec, from: nat)

  function Genesis(spec: Spec): Base {
    Base(SubmittedTask(spec), spec, 1)
  }

  function Seed(b: Base): Replay {
    FromCheckpoint(b.row, b.spec)
  }

  function Tail(b: Base, log: seq<Record>): seq<Record> {
    if b.from <= |log| then log[b.from..] else []
  }

  function Replayed(b: Base, log: seq<Record>): Replay {
    Fold(Seed(b), Tail(b, log))
  }

  /** Rows as the metadata store keeps them. */
  predicate RowShape(row: Task) {
    && !row.status.Unspecified?
    && (!row.status.Terminal() ==> row.result == EMPTY && row.error == "")
    && (row.status.Queued? ==> row.worker == "")
    && (row.status.Running? ==> row.leaseEpoch >= 1 && row.worker != "")
  }

  predicate Grounded(b: Base, log: seq<Record>) {
    && 1 <= b.from <= |log| && RowShape(b.row)
    && b.row.taskID == b.spec.taskID != "" && b.row.identity == b.spec.identity
  }

  lemma SeedFacts(b: Base, log: seq<Record>)
    requires Grounded(b, log)
    ensures var s := Seed(b);
            && ReplayInvariant(s) && s.ok && s.task == b.row && s.status == b.row.status
            && s.leaseEpoch == b.row.leaseEpoch && s.fence == 0
  {}

  lemma ReplayedNext(b: Base, log: seq<Record>, rec: Record)
    requires b.from <= |log|
    ensures Tail(b, log + [rec]) == Tail(b, log) + [rec]
    ensures Replayed(b, log + [rec]) == Apply(Replayed(b, log), rec)
  {
    hide Apply;
    assert (log + [rec])[b.from..] == log[b.from..] + [rec];
    FoldOne(Seed(b), Tail(b, log), rec);
  }

  lemma TailQuiet(b: Base, log: seq<Record>)
    requires Headed(log) && Grounded(b, log)
    ensures NoResubmission(Tail(b, log), 0)
  {}

  /** What every replay of a task's stream keeps. */
  lemma ReplayedFacts(b: Base, log: seq<Record>)
    requires Headed(log) && Grounded(b, log)
    ensures var f := Replayed(b, log);
            && ReplayInvariant(f) && f.ok
            && f.task.taskID == b.row.taskID && f.task.identity == b.row.identity
               && f.task.commandSeq == b.row.commandSeq
            && (b.row.status.Terminal() ==> f == Seed(b))
            && b.row.leaseEpoch <= f.leaseEpoch
  {
    hide Fold, Headed;
    var tail := Tail(b, log);
    SeedFacts(b, log);
    TailQuiet(b, log);
    FoldInvariantFrom(Seed(b), tail);
    FoldMonotoneFrom(Seed(b), tail, 0, |tail|);
    assert tail[..|tail|] == tail && tail[..0] == [];
    NothingFolded(Seed(b));
  }

  lemma NothingFolded(s: Replay)
    ensures Fold(s, []) == s
  {}

  /** Full replay is replay from the submitted row. */
  lemma GenesisReplays(log: seq<Record>)
    requires Headed(log)
    ensures var b := Genesis(log[0].spec); Grounded(b, log) && Replayed(b, log) == Fold(INIT, log)
  {
    var spec := log[0].spec;
    FoldOne(INIT, [], Submitted(spec));
    assert [] + [Submitted(spec)] == [Submitted(spec)];
    FoldAppend(INIT, [Submitted(spec)], log[1..]);
    assert [Submitted(spec)] + log[1..] == log;
  }

  /** What an open replay remembers of the row it started from and the tail it read. */
  ghost predicate Remembers(s: Replay, row: Task, tail: seq<Record>) {
    && (forall e: nat :: e >= 1 ==> (s.fence < e <==> Unfenced(tail, e)))
    && (forall e: nat :: HasStart(tail, e) ==> e <= Max(s.leaseEpoch, s.fence))
    && row.leaseEpoch <= s.leaseEpoch
    && (s.leaseEpoch > row.leaseEpoch ==> HasStart(tail, s.leaseEpoch))
    && (s.status.Running? <==>
          s.leaseEpoch > s.fence
            && (HasStart(tail, s.leaseEpoch) || (row.status.Running? && s.leaseEpoch == row.leaseEpoch)))
  }

  lemma GrowMemory(s: Replay, row: Task, tail: seq<Record>, rec: Record)
    requires Remembers(s, row, tail) && !Apply(s, rec).status.Terminal()
    requires !rec.Submitted? && (rec.Names() ==> rec.epoch >= 1) && !s.status.Terminal()
    ensures Remembers(Apply(s, rec), row, tail + [rec])
  {
    hide HasStart, Unfenced;
    forall e: nat
      ensures HasStart(tail + [rec], e) <==> HasStart(tail, e) || (rec.Started? && rec.epoch == e)
    {
      GrowStart(tail, rec, e);
    }
    forall e: nat
      ensures Unfenced(tail + [rec], e) <==> Unfenced(tail, e) && (rec.Redelivered? ==> rec.epoch < e)
    {
      GrowFence(tail, rec, e);
    }
  }

  lemma FirstMemory(b: Base, log: seq<Record>)
    requires Grounded(b, log) && !b.row.status.Terminal() && Tail(b, log) == []
    ensures Remembers(Replayed(b, log), b.row, [])
  {}

  lemma HeadedCut(log: seq<Record>, j: nat)
    requires Headed(log) && Epoched(log) && 1 <= j <= |log|
    ensures Headed(log[..j]) && Epoched(log[..j])
    ensures j < |log| ==> !log[j].Submitted? && (log[j].Names() ==> log[j].epoch >= 1)
  {}

  /** An open replay was open before, under no higher lease. */
  lemma StillOpenAt(b: Base, log: seq<Record>, j: nat)
    requires Headed(log) && Grounded(b, log) && b.from <= j <= |log| && !Replayed(b, log).status.Terminal()
    ensures Grounded(b, log[..j]) && !Replayed(b, log[..j]).status.Terminal()
    ensures Replayed(b, log[..j]).leaseEpoch <= Replayed(b, log).leaseEpoch
  {
    hide Fold, Headed;
    var tail := Tail(b, log);
    TailQuiet(b, log);
    assert log[..j][b.from..] == tail[..j - b.from] && tail[..|tail|] == tail;
    FoldMonotoneFrom(Seed(b), tail, j - b.from, |tail|);
  }

  lemma {:induction false} Memory(b: Base, log: seq<Record>)
    requires Headed(log) && Epoched(log) && Grounded(b, log) && !Replayed(b, log).status.Terminal()
    ensures Remembers(Replayed(b, log), b.row, Tail(b, log))
    decreases |log|
  {
    hide Apply, Headed, Epoched, Remembers, Fold;
    if b.from == |log| {
      ReplayedFacts(b, log);
      assert Tail(b, log) == [];
      FirstMemory(b, log);
    } else {
      var before, rec := log[..|log| - 1], log[|log| - 1];
      assert before + [rec] == log;
      HeadedCut(log, |log| - 1);
      StillOpenAt(b, log, |log| - 1);
      Memory(b, before);
      ReplayedNext(b, before, rec);
      GrowMemory(Replayed(b, before), b.row, Tail(b, before), rec);
    }
  }

  /** The lease is known to have started - by the tail, or as running in the row - and the
      tail never gave it up. */
  predicate Backed(b: Base, log: seq<Record>, e: nat) {
    && Unfenced(Tail(b, log), e)
    && (HasStart(Tail(b, log), e) || (b.row.status.Running? && b.row.leaseEpoch == e))
  }

  /** A row holds exactly what a terminal record says. */
  ghost predicate Carries(task: Task, rec: Record)
    requires rec.IsTerminal()
  {
    && task.worker == rec.worker && task.result == rec.result
    && (if rec.Completed? then task.status == Succeeded && task.error == ""
        else task.status == Failed && task.error == rec.error)
  }

  /** A terminal record of the newest lease counts in a restart exactly when what the restart
      starts from backs that lease. */
  lemma CompletionBacked(b: Base, log: seq<Record>, rec: Record)
    requires Headed(log) && Epoched(log) && Grounded(b, log) && !Replayed(b, log).status.Terminal()
    requires rec.IsTerminal() && rec.epoch >= 1 && rec.epoch >= Replayed(b, log).leaseEpoch
    ensures var before, after := Replayed(b, log), Replayed(b, log + [rec]);
            && (after.status.Terminal() <==> Backed(b, log, rec.epoch))
            && (Backed(b, log, rec.epoch) ==> after.leaseEpoch == rec.epoch && Carries(after.task, rec))
            && (!Backed(b, log, rec.epoch) ==> after == before)
  {
    hide Headed, HasStart, Unfenced, Fold;
    Memory(b, log);
    ReplayedNext(b, log, rec);
    ReplayedFacts(b, log);
  }

  lemma GenesisBacked(log: seq<Record>, e: nat)
    requires Headed(log)
    ensures Backed(Genesis(log[0].spec), log, e) <==> Durable(log, e)
  {
    SplitLog(log, 1, e);
  }

  /** In full replay it counts exactly when that lease was logged as started and no redelivery
      of it - or of a later lease - was logged. */
  lemma CompletionDurable(log: seq<Record>, rec: Record)
    requires Headed(log) && Epoched(log) && !Fold(INIT, log).status.Terminal()
    requires rec.IsTerminal() && rec.epoch >= 1 && rec.epoch >= Fold(INIT, log).leaseEpoch
    ensures var before, after := Fold(INIT, log), Fold(INIT, log + [rec]);
            && (after.status.Terminal() <==> Durable(log, rec.epoch))
            && (Durable(log, rec.epoch) ==> after.leaseEpoch == rec.epoch && Carries(after.task, rec))
            && (!Durable(log, rec.epoch) ==> after == before)
  {
    hide Fold, Durable, Carries, Replayed, Grounded;
    GenesisReplays(log);
    HeadedMore(log, rec);
    GenesisReplays(log + [rec]);
    CompletionBacked(Genesis(log[0].spec), log, rec);
    GenesisBacked(log, rec.epoch);
  }

  lemma HeadedMore(log: seq<Record>, rec: Record)
    requires Headed(log) && !rec.Submitted?
    ensures Headed(log + [rec]) && (log + [rec])[0] == log[0]
  {}

  /** A checkpoint restart and full replay give the same status after a completion exactly
      when, the tail not giving the lease up, what was logged before the tail amounts to what
      the row says. */
  lemma RestartsAgree(b: Base, log: seq<Record>, rec: Record)
    requires Headed(log) && Epoched(log) && Grounded(b, log)
    requires !Replayed(b, log).status.Terminal() && !Fold(INIT, log).status.Terminal()
    requires rec.IsTerminal() && rec.epoch >= 1
    requires rec.epoch >= Replayed(b, log).leaseEpoch && rec.epoch >= Fold(INIT, log).leaseEpoch
    ensures var e, early := rec.epoch, log[..b.from];
            (Replayed(b, log + [rec]).status.Terminal() <==> Fold(INIT, log + [rec]).status.Terminal())
            <==>
            (Unfenced(Tail(b, log), e) ==>
               (HasStart(log, e) && Unfenced(early, e)
                <==> HasStart(Tail(b, log), e) || (b.row.status.Running? && b.row.leaseEpoch == e)))
  {
    hide Fold, HasStart, Unfenced, Headed;
    CompletionBacked(b, log, rec);
    CompletionDurable(log, rec);
    SplitLog(log, b.from, rec.epoch);
  }

  /** A record that settled nothing when it was logged: its lease was not backed then, or the
      restart does not read it. */
  lemma NeverTook(b: Base, log: seq<Record>, rec: Record)
    requires Headed(log) && Epoched(log) && Grounded(b, log) && !Replayed(b, log).status.Terminal()
    requires rec.IsTerminal() && rec.epoch >= 1 && rec.epoch >= Replayed(b, log).leaseEpoch && Keyed(log, rec)
    ensures var j := FirstKeyed(log, rec); j < |log| && (j < b.from || !Backed(b, log[..j], rec.epoch))
  {
    hide Fold, Backed, Headed, Epoched, FirstKeyed, Replayed;
    var j := FirstKeyed(log, rec);
    KeyedFirst(log, rec);
    if b.from <= j {
      HeadedCut(log, j);
      StillOpenAt(b, log, j);
      StillOpenAt(b, log, j + 1);
      CompletionBacked(b, log[..j], log[j]);
      assert log[..j + 1] == log[..j] + [log[j]];
    }
  }

  lemma KeyedFirst(log: seq<Record>, rec: Record)
    requires Headed(log) && rec.IsTerminal() && Keyed(log, rec)
    ensures var j := FirstKeyed(log, rec);
            1 <= j < |log| && SameKey(log[j], rec) && log[j].IsTerminal() && log[j].epoch == rec.epoch
  {
    FirstKeyedAt(log, rec);
  }

  // ---- The live row and its log -------------------------------------------------------------

  /** The key of the record that settled a row. */
  function TerminalKey(task: Task): Record {
    if task.status.Succeeded? then Completed(task.leaseEpoch, task.worker, EMPTY)
    else TaskFailed(task.leaseEpoch, task.worker, EMPTY, "")
  }

  /** The first record under the row's terminal key is in the tail and came while its lease was
      backed. Epochs are reused after a restart, so that record may be older than the row. */
  predicate Carried(b: Base, log: seq<Record>, task: Task) {
    var j := FirstKeyed(log, TerminalKey(task));
    b.from <= j < |log| && Backed(b, log[..j], task.leaseEpoch)
  }

  /** A completion record has no place for an error message, so a success reported with one
      keeps it only in the live row; the mailbox number is that of the row replay starts from. */
  function Logged(b: Base, task: Task): Task {
    (if task.status.Succeeded? then task.(error := "") else task).(commandSeq := b.row.commandSeq)
  }

  /** A restart is settled exactly when the base is, or the tail carries the settled row, and
      then it agrees with it. Holds across restarts, checkpoints and failed redelivery passes. */
  ghost predicate Sound(b: Base, task: Task, log: seq<Record>) {
    var f := Replayed(b, log);
    && Headed(log) && Epoched(log) && Grounded(b, log) && RowShape(task)
    && task.taskID == b.row.taskID && task.identity == b.row.identity
    && f.leaseEpoch <= task.leaseEpoch
    && (b.row.status.Terminal() ==> task == b.row)
    && (!task.status.Terminal() ==> !f.status.Terminal())
    && (task.status.Terminal() && !b.row.status.Terminal() ==>
          Keyed(log, TerminalKey(task)) && (f.status.Terminal() <==> Carried(b, log, task)))
    && (f.status.Terminal() && !b.row.status.Terminal() ==> f.task == Logged(b, task))
  }

  lemma SubmitSound(spec: Spec, number: nat)
    requires spec.taskID != "" && spec.leaseEpoch == 0
    ensures Sound(Genesis(spec), SubmittedTask(spec).(commandSeq := number), [Submitted(spec)])
  {
    assert Tail(Genesis(spec), [Submitted(spec)]) == [];
  }

  /** LeaseTask. */
  function Leased(task: Task, worker: string): Task {
    task.(status := Running, worker := worker, leaseEpoch := task.leaseEpoch + 1)
  }

  function Requeued(task: Task): Task {
    task.(status := Queued, worker := "")
  }

  function Settled(task: Task, ok: bool, result: Bytes, error: string): Task {
    task.(status := if ok then Succeeded else Failed, result := result, error := error)
  }

  function TerminalRecord(task: Task, ok: bool, result: Bytes, error: string): Record {
    if ok then Completed(task.leaseEpoch, task.worker, result)
    else TaskFailed(task.leaseEpoch, task.worker, result, error)
  }

  lemma LeaseSound(b: Base, task: Task, log: seq<Record>, worker: string)
    requires Sound(b, task, log) && task.status.Queued? && worker != ""
    ensures Sound(b, Leased(task, worker), log)
  {
    hide Replayed, Headed, Epoched, Grounded, Carried, Keyed;
  }

  lemma RequeueSound(b: Base, task: Task, log: seq<Record>)
    requires Sound(b, task, log) && task.status.Running?
    ensures Sound(b, Requeued(task), log)
  {
    hide Replayed, Headed, Epoched, Grounded, Carried, Keyed;
  }

  lemma GrowHeaded(b: Base, log: seq<Record>, rec: Record)
    requires Headed(log) && Epoched(log) && Grounded(b, log) && !rec.Submitted? && (rec.Names() ==> rec.epoch >= 1)
    ensures Headed(log + [rec]) && Epoched(log + [rec]) && Grounded(b, log + [rec]) && b.from <= |log|
  {}

  /** Start and redelivery records leave an open task open; a redelivery that was only
      logged - the pass failed further on - is such a record too. */
  lemma RecordSound(b: Base, task: Task, log: seq<Record>, rec: Record)
    requires Sound(b, task, log) && task.status.Running?
    requires rec.Started? || rec.Redelivered?
    requires rec.epoch == task.leaseEpoch
    ensures Sound(b, task, Append(log, rec))
  {
    hide Replayed, Headed, Epoched, Grounded, Keyed, Carried;
    var f := Replayed(b, log);
    GrowHeaded(b, log, rec);
    ReplayedNext(b, log, rec);
    OpenBase(b, task, log);
  }

  /** An open row stands on an open base. */
  lemma OpenBase(b: Base, task: Task, log: seq<Record>)
    requires Sound(b, task, log) && !task.status.Terminal()
    ensures !b.row.status.Terminal() && !Replayed(b, log).status.Terminal()
  {}

  /** A completion reaches the next restart exactly when its lease is backed and no record of
      the same kind, worker and epoch was logged before. */
  lemma CompleteSound(b: Base, task: Task, log: seq<Record>, ok: bool, result: Bytes, error: string)
    requires Sound(b, task, log) && task.status.Running?
    ensures var rec := TerminalRecord(task, ok, result, error);
            && Sound(b, Settled(task, ok, result, error), Append(log, rec))
            && (Replayed(b, Append(log, rec)).status.Terminal()
                <==> Backed(b, log, task.leaseEpoch) && !Keyed(log, rec))
  {
    hide Replayed, Headed, Epoched, Grounded, Backed, Keyed, FirstKeyed, SameKey;
    var rec := TerminalRecord(task, ok, result, error);
    if Keyed(log, rec) {
      CompleteAgain(b, task, log, ok, result, error);
    } else {
      CompleteFirst(b, task, log, ok, result, error);
    }
  }

  lemma CompleteAgain(b: Base, task: Task, log: seq<Record>, ok: bool, result: Bytes, error: string)
    requires Sound(b, task, log) && task.status.Running? && Keyed(log, TerminalRecord(task, ok, result, error))
    ensures Sound(b, Settled(task, ok, result, error), log) && !Replayed(b, log).status.Terminal()
  {
    hide Replayed, Headed, Epoched, Grounded, Backed, Keyed, FirstKeyed, SameKey;
    var rec := TerminalRecord(task, ok, result, error);
    SettledKey(task, ok, result, error);
    KeyAlike(log, rec, TerminalKey(Settled(task, ok, result, error)));
    NeverTook(b, log, rec);
    OpenBase(b, task, log);
  }

  lemma CompleteFirst(b: Base, task: Task, log: seq<Record>, ok: bool, result: Bytes, error: string)
    requires Sound(b, task, log) && task.status.Running? && !Keyed(log, TerminalRecord(task, ok, result, error))
    ensures var more := log + [TerminalRecord(task, ok, result, error)];
            && Sound(b, Settled(task, ok, result, error), more)
            && (Replayed(b, more).status.Terminal() <==> Backed(b, log, task.leaseEpoch))
  {
    hide Replayed, Headed, Epoched, Grounded, Backed, Keyed, FirstKeyed, SameKey;
    var rec := TerminalRecord(task, ok, result, error);
    SettledKey(task, ok, result, error);
    OpenBase(b, task, log);
    GrowHeaded(b, log, rec);
    CompletionBacked(b, log, rec);
    KeyAppended(log, rec, TerminalKey(Settled(task, ok, result, error)));
    ReplayedFacts(b, log);
    ReplayedFacts(b, log + [rec]);
  }

  lemma SettledKey(task: Task, ok: bool, result: Bytes, error: string)
    ensures var rec, key := TerminalRecord(task, ok, result, error), TerminalKey(Settled(task, ok, result, error));
            rec.IsTerminal() && SameKey(rec, key)
  {}

  /** A control-plane restart replaces the row by replay's. */
  lemma RestartSound(b: Base, task: Task, log: seq<Record>)
    requires Sound(b, task, log)
    ensures Sound(b, FinalTask(Replayed(b, log)), log)
  {
    hide Replayed, Headed, Epoched, Grounded, Carried, Keyed;
    var f := Replayed(b, log);
    ReplayedFacts(b, log);
    SeedFacts(b, log);
    if f.status.Terminal() && !b.row.status.Terminal() {
      assert FinalTask(f) == f.task == Logged(b, task);
      CarriedLogged(b, log, task);
    }
  }

  lemma CarriedLogged(b: Base, log: seq<Record>, task: Task)
    ensures Carried(b, log, Logged(b, task)) == Carried(b, log, task)
    ensures TerminalKey(Logged(b, task)) == TerminalKey(task)
  {}

  /** What a restart gives back: a settled row exactly when its base is it or the tail carries
      it, else the same task queued again with the last known lease epoch. */
  lemma RestartReturns(b: Base, task: Task, log: seq<Record>)
    requires Sound(b, task, log)
    ensures var row := FinalTask(Replayed(b, log));
            if b.row.status.Terminal() then row == task
            else if task.status.Terminal() && Carried(b, log, task) then
              row == Logged(b, task)
              && (row == task <==> (task.status.Succeeded? ==> task.error == "") && task.commandSeq == b.row.commandSeq)
            else row == task.(status := Queued, worker := "", leaseEpoch := row.leaseEpoch,
                              result := EMPTY, error := "", commandSeq := b.row.commandSeq)
                 && row.leaseEpoch <= task.leaseEpoch
  {
    hide Replayed, Headed, Epoched, Grounded, Carried, Keyed;
    ReplayedFacts(b, log);
    SeedFacts(b, log);
  }

  // ---- A checkpoint becomes the base ----------------------------------------------------------

  /** What one process logs after a checkpoint read the stream's position, while the task is
      still open. */
  predicate Quiet(task: Task, tail: seq<Record>) {
    !task.status.Terminal() ==>
      forall k :: 0 <= k < |tail| ==>
        !tail[k].IsTerminal() && !tail[k].Submitted? && (tail[k].Names() ==> tail[k].epoch <= task.leaseEpoch)
  }

  lemma {:induction false} QuietFold(s: Replay, tail: seq<Record>)
    requires !s.status.Terminal() && ReplayInvariant(s)
    requires forall k :: 0 <= k < |tail| ==>
      !tail[k].IsTerminal() && !tail[k].Submitted? && (tail[k].Names() ==> tail[k].epoch <= s.leaseEpoch)
    ensures var f := Fold(s, tail); !f.status.Terminal() && f.leaseEpoch == s.leaseEpoch
  {
    if tail != [] {
      QuietFold(s, tail[..|tail| - 1]);
    }
  }

  /** Copying the live row for a checkpoint makes it the base of the next restart. */
  lemma CheckpointSound(b: Base, task: Task, log: seq<Record>, from: nat)
    requires Sound(b, task, log) && 1 <= from <= |log| && Quiet(task, log[from..])
    ensures Sound(Base(task, b.spec, from), task, log)
  {
    hide Fold, Headed, Epoched, Keyed, Carried;
    var c := Base(task, b.spec, from);
    SeedFacts(c, log);
    if !task.status.Terminal() {
      QuietFold(Seed(c), Tail(c, log));
    } else {
      ReplayedFacts(c, log);
    }
  }
}
