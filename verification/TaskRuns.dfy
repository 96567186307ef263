/** Runs of one task: leases, starts, redeliveries, completions, metadata checkpoints and
    restarts (internal/control/service.go:640-827, internal/control/hardening.go:276-359,
    internal/control/checkpoint.go:85-121, internal/control/bootstrap.go:25-94). */
module TaskRuns {
  import opened Basics
  import opened TaskLog
  import opened TaskKeys
  import opened TaskCheckpoint
  import opened TaskProtocol
  import opened TaskRestarts

  datatype Act =
    | Lease(worker: string)
    | Start
    | Redeliver
    | LogRedelivery
    | Complete(ok: bool, result: Bytes, error: string)
    | ReadPosition
    | CopyRow
    | Restart
    | Fallback

  /** The row, its stream, what the next restart starts from, and the stream position a
      checkpoint in the making has read. */
  datatype Live = Live(task: Task, log: seq<Record>, base: Base, mark: Option<nat>)

  /** Guards of the metadata store: only queued tasks are leased, only the running lease
      acts. LogRedelivery is a redelivery pass that failed after writing this record. */
  predicate Enabled(s: Live, act: Act) {
    match act
    case Lease(worker) => s.task.status.Queued? && worker != ""
    case ReadPosition => true
    case CopyRow => s.mark.Some?
    case Restart => true
    case Fallback => true
    case _ => s.task.status.Running?
  }

  /** A restart loads the newest checkpoint; until there is one, and when it does not load,
      it is full replay. */
  function Next(s: Live, act: Act): Live {
    match act
    case Lease(worker) => s.(task := Leased(s.task, worker))
    case Start => s.(log := Append(s.log, Started(s.task.leaseEpoch, s.task.worker)))
    case Redeliver => s.(task := Requeued(s.task), log := Append(s.log, Redelivered(s.task.leaseEpoch)))
    case LogRedelivery => s.(log := Append(s.log, Redelivered(s.task.leaseEpoch)))
    case Complete(ok, result, error) =>
      s.(task := Settled(s.task, ok, result, error), log := Append(s.log, TerminalRecord(s.task, ok, result, error)))
    case ReadPosition => s.(mark := Some(|s.log|))
    case CopyRow => if s.mark.Some? then s.(base := Base(s.task, s.base.spec, TailFrom(s.mark.value)), mark := None)
      else s
    case Restart => s.(task := FinalTask(Replayed(s.base, s.log)), mark := None)
    case Fallback => s.(task := FinalTask(Full(s.base, s.log)), base := Genesis(s.base.spec), mark := None)
  }

  /** A submitted task; `number` is its place in an actor's mailbox, or 0. */
  function Submission(spec: Spec, number: nat): Live {
    Live(SubmittedTask(spec).(commandSeq := number), [Submitted(spec)], Genesis(spec), None)
  }

  /** Where a sequence of acts leads a submitted task; refused acts change nothing. */
  function Run(spec: Spec, number: nat, acts: seq<Act>): Live {
    if acts == [] then Submission(spec, number)
    else
      var s, act := Run(spec, number, acts[..|acts| - 1]), acts[|acts| - 1];
      if Enabled(s, act) then Next(s, act) else s
  }

  /** The invariant of every run: row and stream are sound for the next restart and for full
      replay, and a checkpoint in the making has missed only quiet records. */
  ghost predicate Steady(s: Live) {
    && Covers(s.base, s.task, s.log)
    && (s.mark.Some? ==> s.mark.value <= |s.log| && Quiet(s.task, s.log[TailFrom(s.mark.value)..]))
  }

  lemma QuietMore(task: Task, next: Task, log: seq<Record>, rec: Record, from: nat)
    requires from <= |log| && Quiet(task, log[from..]) && !task.status.Terminal() && !rec.Submitted?
    requires task.leaseEpoch <= next.leaseEpoch
    requires next.status.Terminal() || (!rec.IsTerminal() && (rec.Names() ==> rec.epoch <= next.leaseEpoch))
    ensures from <= |Append(log, rec)| && Quiet(next, Append(log, rec)[from..])
  {
    if !Keyed(log, rec) {
      assert (log + [rec])[from..] == log[from..] + [rec];
    }
  }

  lemma MarkBound(s: Live)
    requires Steady(s) && s.mark.Some?
    ensures 1 <= TailFrom(s.mark.value) <= |s.log|
  {}

  /** The record an act appends. */
  function ActRecord(s: Live, act: Act): Record {
    match act
    case Start => Started(s.task.leaseEpoch, s.task.worker)
    case Complete(ok, result, error) => TerminalRecord(s.task, ok, result, error)
    case _ => Redelivered(s.task.leaseEpoch)
  }

  lemma LogSteady(s: Live, act: Act)
    requires Steady(s) && Enabled(s, act)
    requires act.Start? || act.Redeliver? || act.LogRedelivery? || act.Complete?
    ensures Steady(Next(s, act))
  {
    hide Covers, Quiet, Append, Replayed;
    var rec := ActRecord(s, act);
    if s.mark.Some? {
      MarkBound(s);
      QuietMore(s.task, Next(s, act).task, s.log, rec, TailFrom(s.mark.value));
    }
    match act
    case Start => RecordCovers(s.base, s.task, s.log, rec);
    case Redeliver =>
      RecordCovers(s.base, s.task, s.log, rec);
      RequeueCovers(s.base, s.task, Append(s.log, rec));
    case LogRedelivery => RecordCovers(s.base, s.task, s.log, rec);
    case Complete(ok, result, error) => CompleteCovers(s.base, s.task, s.log, ok, result, error);
  }

  /** A requeue whose redelivery is logged already. */
  lemma RequeueSteady(s: Live)
    requires Steady(s) && s.task.status.Running?
    ensures Steady(s.(task := Requeued(s.task)))
  {
    hide Covers;
    RequeueCovers(s.base, s.task, s.log);
  }

  lemma PlainSteady(s: Live, act: Act)
    requires Steady(s) && Enabled(s, act)
    requires act.Lease? || act.ReadPosition? || act.CopyRow? || act.Restart? || act.Fallback?
    ensures Steady(Next(s, act))
  {
    hide Covers, Replayed;
    match act
    case Lease(worker) => LeaseCovers(s.base, s.task, s.log, worker);
    case ReadPosition => NothingMissed(s);
    case CopyRow =>
      MarkBound(s);
      CheckpointCovers(s.base, s.task, s.log, TailFrom(s.mark.value));
    case Restart => RestartCovers(s.base, s.task, s.log);
    case Fallback => FallbackCovers(s.base, s.task, s.log);
  }

  /** Right after the position was read the tail is empty - or the submission's own log. */
  lemma NothingMissed(s: Live)
    requires Covers(s.base, s.task, s.log)
    ensures Quiet(s.task, s.log[TailFrom(|s.log|)..])
  {}

  /** Every run keeps row and log sound for whatever the next restart starts from:
      restarts, checkpoints, dropped repetitions and half-failed passes included. */
  lemma {:induction false} RunSound(spec: Spec, number: nat, acts: seq<Act>)
    requires spec.taskID != "" && spec.leaseEpoch == 0
    ensures Steady(Run(spec, number, acts))
  {
    hide Steady, Next, Enabled;
    if acts == [] {
      Beginning(spec, number);
    } else {
      var s, act := Run(spec, number, acts[..|acts| - 1]), acts[|acts| - 1];
      RunSound(spec, number, acts[..|acts| - 1]);
      if Enabled(s, act) {
        if act.Start? || act.Redeliver? || act.LogRedelivery? || act.Complete? {
          LogSteady(s, act);
        } else {
          PlainSteady(s, act);
        }
      }
    }
  }

  lemma Beginning(spec: Spec, number: nat)
    requires spec.taskID != "" && spec.leaseEpoch == 0
    ensures Steady(Submission(spec, number))
  {
    hide Covers;
    SubmitCovers(spec, number);
  }

  /** Whatever run came before: a row that full replay would settle the restart that takes
      place settles too, and nothing a log carried is lost by taking checkpoints. */
  lemma CheckpointsLoseNothing(spec: Spec, number: nat, acts: seq<Act>)
    requires spec.taskID != "" && spec.leaseEpoch == 0
    ensures var s := Run(spec, number, acts);
            var full, other := FinalTask(Fold(INIT, s.log)), FinalTask(Replayed(s.base, s.log));
            full.status.Terminal() ==>
              && other.status == full.status == s.task.status
              && full == Logged(Genesis(s.base.spec), s.task)
              && (other == s.task || other == Logged(s.base, s.task))
  {
    hide Run, Fold, Covers, Replayed;
    RunSound(spec, number, acts);
    var s := Run(spec, number, acts);
    if Fold(INIT, s.log).status.Terminal() {
      CheckpointKeepsMore(s.base, s.task, s.log);
    }
  }

  // ---- Undisturbed runs -----------------------------------------------------------------------

  /** No restart, no half-failed redelivery pass, a start of a lease before any other record of
      it, and a start before every completion. A repeated start is dropped by the log. */
  predicate Undisturbed(s: Live, act: Act) {
    match act
    case Lease(_) => true
    case Start => High(s.log) < s.task.leaseEpoch || Keyed(s.log, Started(s.task.leaseEpoch, s.task.worker))
    case Redeliver => true
    case Complete(_, _, _) => HasStart(s.log, s.task.leaseEpoch)
    case _ => false
  }

  predicate Calm(spec: Spec, number: nat, acts: seq<Act>) {
    acts == [] ||
      (Calm(spec, number, acts[..|acts| - 1])
       && Enabled(Run(spec, number, acts[..|acts| - 1]), acts[|acts| - 1])
       && Undisturbed(Run(spec, number, acts[..|acts| - 1]), acts[|acts| - 1]))
  }

  /** No terminal record but, possibly, the last. */
  predicate SettledLast(log: seq<Record>) {
    forall k :: 0 <= k < |log| - 1 ==> !log[k].IsTerminal()
  }

  /** A row and a log that full replay is sound for, the log shaped and settled last. */
  ghost predicate Orderly(s: Live) {
    && Shaped(s.log) && SettledLast(s.log) && High(s.log) <= s.task.leaseEpoch
    && s.log != [] && s.log[0].Submitted? && s.base == Genesis(s.log[0].spec) && s.mark == None
    && Sound(s.base, s.task, s.log)
    && OpenOrderly(s.task, s.log, Fold(INIT, s.log))
  }

  ghost predicate OpenOrderly(task: Task, log: seq<Record>, f: Replay) {
    && (task.status.Running? ==> Unfenced(log, task.leaseEpoch))
    && (task.status.Running? && f.leaseEpoch == task.leaseEpoch ==> f.task.worker == task.worker)
    && (task.status.Terminal() ==> f.status.Terminal())
    && (task.status.Queued? ==> f.status.Queued?)
    && (!task.status.Terminal() ==> log == [] || !log[|log| - 1].IsTerminal())
  }

  lemma SubmitOrderly(spec: Spec, number: nat)
    requires spec.taskID != "" && spec.leaseEpoch == 0
    ensures Orderly(Submission(spec, number))
  {
    SubmitSound(spec, number);
    assert [Submitted(spec)][..0] == [];
    assert Fold(INIT, [Submitted(spec)]) == Apply(INIT, Submitted(spec));
  }

  lemma GrowShape(log: seq<Record>, rec: Record)
    requires Shaped(log) && SettledLast(log) && InProtocol(High(log), rec)
    requires log != [] ==> !log[|log| - 1].IsTerminal()
    ensures Shaped(log + [rec]) && SettledLast(log + [rec]) && (log + [rec])[0] == log[0]
    ensures High(log + [rec]) == Max(High(log), EpochOf(rec))
  {
    var more := log + [rec];
    assert more[..|more| - 1] == log;
  }

  /** High bounds every redelivery named in the log. */
  lemma {:induction false} BelowHigh(log: seq<Record>, e: nat)
    requires High(log) < e
    ensures Unfenced(log, e)
  {
    if log != [] {
      BelowHigh(log[..|log| - 1], e);
      assert log == log[..|log| - 1] + [log[|log| - 1]];
      GrowFence(log[..|log| - 1], log[|log| - 1], e);
    }
  }

  /** Soundness of full replay, said of the fold. */
  lemma FullFacts(s: Live)
    requires Orderly(s)
    ensures Shaped(s.log) && Headed(s.log) && Epoched(s.log) && RowShape(s.task) && Grounded(s.base, s.log)
    ensures var f := Fold(INIT, s.log);
            && Replayed(s.base, s.log) == f && Under(f, High(s.log)) && ReplayInvariant(f) && f.ok
            && f.leaseEpoch <= s.task.leaseEpoch
            && (!s.task.status.Terminal() ==> !f.status.Terminal())
            && (s.task.status.Terminal() ==> f.status.Terminal() && f.task == Logged(s.base, s.task))
            && s.task.taskID == f.task.taskID && s.task.identity == f.task.identity && f.task.commandSeq == 0
  {
    hide Fold, Replayed, Grounded, Shaped, High;
    GenesisReplays(s.log);
    ReplayedFacts(s.base, s.log);
    assert s.log[..|s.log|] == s.log;
    UnderAt(s.log, |s.log|);
  }

  lemma LeaseOrderly(s: Live, worker: string)
    requires Orderly(s) && s.task.status.Queued? && worker != ""
    ensures Orderly(Next(s, Lease(worker)))
  {
    hide Fold, Shaped, SettledLast, Unfenced, Headed, Epoched, Sound;
    LeaseSound(s.base, s.task, s.log, worker);
    BelowHigh(s.log, s.task.leaseEpoch + 1);
    FullFacts(s);
  }

  lemma StartOrderly(s: Live)
    requires Orderly(s) && s.task.status.Running? && High(s.log) < s.task.leaseEpoch
    ensures Orderly(Next(s, Start))
  {
    hide Fold, Shaped, SettledLast, Unfenced, Headed, Epoched, Sound, High, Keyed;
    var rec := Started(s.task.leaseEpoch, s.task.worker);
    RecordSound(s.base, s.task, s.log, rec);
    GrowShape(s.log, rec);
    GrowFence(s.log, rec, s.task.leaseEpoch);
    FoldOne(INIT, s.log, rec);
    FullFacts(s);
  }

  lemma RedeliverOrderly(s: Live)
    requires Orderly(s) && s.task.status.Running?
    ensures Orderly(Next(s, Redeliver))
  {
    hide Fold, Shaped, SettledLast, Unfenced, Headed, Epoched, Sound, High, Keyed;
    var rec := Redelivered(s.task.leaseEpoch);
    RecordSound(s.base, s.task, s.log, rec);
    RequeueSound(s.base, s.task, Append(s.log, rec));
    FullFacts(s);
    NeverKeyed(s.log, rec);
    GrowShape(s.log, rec);
    FoldOne(INIT, s.log, rec);
  }

  lemma NeverKeyed(log: seq<Record>, rec: Record)
    requires rec.Redelivered?
    ensures Append(log, rec) == log + [rec]
  {}

  lemma CompleteOrderly(s: Live, ok: bool, result: Bytes, error: string)
    requires Orderly(s) && s.task.status.Running? && HasStart(s.log, s.task.leaseEpoch)
    ensures Orderly(Next(s, Complete(ok, result, error)))
  {
    hide Fold, Shaped, SettledLast, Unfenced, HasStart, Headed, Epoched, Sound, High;
    var rec := TerminalRecord(s.task, ok, result, error);
    CompleteSound(s.base, s.task, s.log, ok, result, error);
    FullFacts(s);
    NoTerminalYet(s.log, rec);
    GrowShape(s.log, rec);
    CompletionDurable(s.log, rec);
  }

  lemma NoTerminalYet(log: seq<Record>, rec: Record)
    requires SettledLast(log) && (log != [] ==> !log[|log| - 1].IsTerminal()) && rec.IsTerminal()
    ensures Append(log, rec) == log + [rec]
  {}

  lemma StartAgain(s: Live)
    requires Keyed(s.log, Started(s.task.leaseEpoch, s.task.worker))
    ensures Next(s, Start) == s
  {}

  lemma {:induction false} CalmOrderly(spec: Spec, number: nat, acts: seq<Act>)
    requires spec.taskID != "" && spec.leaseEpoch == 0 && Calm(spec, number, acts)
    ensures Orderly(Run(spec, number, acts))
  {
    hide Orderly, HasStart, High, Keyed, Next;
    if acts == [] {
      SubmitOrderly(spec, number);
    } else {
      var s := Run(spec, number, acts[..|acts| - 1]);
      CalmOrderly(spec, number, acts[..|acts| - 1]);
      match acts[|acts| - 1]
      case Lease(worker) => LeaseOrderly(s, worker);
      case Start =>
        if Keyed(s.log, Started(s.task.leaseEpoch, s.task.worker)) {
          StartAgain(s);
        } else {
          StartOrderly(s);
        }
      case Redeliver => RedeliverOrderly(s);
      case Complete(ok, result, error) => CompleteOrderly(s, ok, result, error);
    }
  }

  /** Without restarts and failed passes, folding the log gives the settled row exactly - but
      for an error message of a success and the mailbox number - and queues every other task. */
  lemma CalmReplay(spec: Spec, number: nat, acts: seq<Act>)
    requires spec.taskID != "" && spec.leaseEpoch == 0 && Calm(spec, number, acts)
    ensures var s := Run(spec, number, acts);
            var row := FinalTask(Fold(INIT, s.log));
            if s.task.status.Terminal() then row == Logged(Genesis(spec), s.task)
            else row == s.task.(status := Queued, worker := "", leaseEpoch := row.leaseEpoch, commandSeq := 0)
  {
    hide Fold, Run, Calm, Shaped, SettledLast, High, Headed, Epoched, Sound, Grounded;
    CalmOrderly(spec, number, acts);
    FullFacts(Run(spec, number, acts));
  }
}
