/** A restart from a checkpoint against full replay of the same stream
    (internal/control/bootstrap.go:43-55): either may come next, and the checkpoint never
    loses what full replay keeps. */
module TaskRestarts {
  import opened Basics
  import opened TaskLog
  import opened TaskKeys
  import opened TaskCheckpoint
  import opened TaskProtocol

  /** Full replay in terms of the base: from the submitted row. */
  function Full(b: Base, log: seq<Record>): Replay {
    Replayed(Genesis(b.spec), log)
  }

  /** The row is sound for both restarts. What full replay settles the other one settles, it
      knows no older lease, and a running lease that full replay backs it backs too. */
  ghost predicate Covers(b: Base, task: Task, log: seq<Record>) {
    && Sound(b, task, log) && Sound(Genesis(b.spec), task, log) && log[0] == Submitted(b.spec)
    && (Full(b, log).status.Terminal() ==> Replayed(b, log).status.Terminal())
    && (!Replayed(b, log).status.Terminal() ==> Full(b, log).leaseEpoch <= Replayed(b, log).leaseEpoch)
    && (task.status.Running? && Backed(Genesis(b.spec), log, task.leaseEpoch) ==> Backed(b, log, task.leaseEpoch))
  }

  lemma SubmitCovers(spec: Spec, number: nat)
    requires spec.taskID != "" && spec.leaseEpoch == 0
    ensures Covers(Genesis(spec), SubmittedTask(spec).(commandSeq := number), [Submitted(spec)])
  {
    hide Sound;
    SubmitSound(spec, number);
  }

  /** A lease full replay backs is one it has seen. */
  lemma BackedIsOld(b: Base, log: seq<Record>, e: nat)
    requires Headed(log) && Epoched(log) && log[0] == Submitted(b.spec) && !Full(b, log).status.Terminal()
    requires e >= 1 && Backed(Genesis(b.spec), log, e)
    ensures e <= Full(b, log).leaseEpoch
  {
    hide Replayed, HasStart, Unfenced, Headed, Epoched;
    GenesisReplays(log);
    Memory(Genesis(b.spec), log);
  }

  lemma LeaseCovers(b: Base, task: Task, log: seq<Record>, worker: string)
    requires Covers(b, task, log) && task.status.Queued? && worker != ""
    ensures Covers(b, Leased(task, worker), log)
  {
    hide Replayed, Headed, Epoched, Grounded, Carried, Keyed, Backed;
    LeaseSound(b, task, log, worker);
    LeaseSound(Genesis(b.spec), task, log, worker);
    if Backed(Genesis(b.spec), log, task.leaseEpoch + 1) {
      BackedIsOld(b, log, task.leaseEpoch + 1);
    }
  }

  lemma RequeueCovers(b: Base, task: Task, log: seq<Record>)
    requires Covers(b, task, log) && task.status.Running?
    ensures Covers(b, Requeued(task), log)
  {
    hide Replayed, Headed, Epoched, Grounded, Carried, Keyed, Backed;
    RequeueSound(b, task, log);
    RequeueSound(Genesis(b.spec), task, log);
  }

  /** A start is applied by the one where full replay applies it; neither settles. */
  lemma StartApplies(b: Base, task: Task, log: seq<Record>, rec: Record)
    requires Covers(b, task, log) && task.status.Running? && rec.Started? && rec.epoch == task.leaseEpoch
    ensures var g, f := Full(b, log), Replayed(b, log);
            !f.status.Terminal() && Apply(g, rec).leaseEpoch <= Apply(f, rec).leaseEpoch
  {
    hide Replayed, Headed, Epoched, HasStart, Unfenced, Carried, Keyed;
    var e := task.leaseEpoch;
    OpenBase(b, task, log);
    OpenBase(Genesis(b.spec), task, log);
    Memory(b, log);
    Memory(Genesis(b.spec), log);
    FenceIsLower(b, log, e);
  }

  /** Full replay reads at least the redeliveries of the tail. */
  lemma FenceIsLower(b: Base, log: seq<Record>, e: nat)
    requires 1 <= b.from <= |log|
    ensures Unfenced(Tail(Genesis(b.spec), log), e) ==> Unfenced(Tail(b, log), e)
  {
    var all, tail := Tail(Genesis(b.spec), log), Tail(b, log);
    assert all[b.from - 1..] == tail;
    SplitLog(all, b.from - 1, e);
  }

  lemma BackedNext(b: Base, log: seq<Record>, rec: Record, e: nat)
    requires b.from <= |log|
    ensures Backed(b, log + [rec], e) <==>
            (rec.Redelivered? ==> rec.epoch < e) && Unfenced(Tail(b, log), e)
            && (Backed(b, log, e) || (rec.Started? && rec.epoch == e))
  {
    hide HasStart, Unfenced;
    ReplayedNext(b, log, rec);
    GrowStart(Tail(b, log), rec, e);
    GrowFence(Tail(b, log), rec, e);
  }

  lemma RecordCovers(b: Base, task: Task, log: seq<Record>, rec: Record)
    requires Covers(b, task, log) && task.status.Running?
    requires rec.Started? || rec.Redelivered?
    requires rec.epoch == task.leaseEpoch
    ensures Covers(b, task, Append(log, rec))
  {
    hide Sound, Replayed, Unfenced, Backed, Keyed;
    RecordSound(b, task, log, rec);
    RecordSound(Genesis(b.spec), task, log, rec);
    if !Keyed(log, rec) {
      var e := task.leaseEpoch;
      SoundShape(b, task, log);
      ReplayedNext(b, log, rec);
      ReplayedNext(Genesis(b.spec), log, rec);
      BackedNext(b, log, rec, e);
      BackedNext(Genesis(b.spec), log, rec, e);
      FenceIsLower(b, log, e);
      OpenEither(b, task, Append(log, rec));
      if rec.Started? {
        StartApplies(b, task, log, rec);
      } else {
        OpenEither(b, task, log);
      }
    }
  }

  lemma SoundShape(b: Base, task: Task, log: seq<Record>)
    requires Sound(b, task, log)
    ensures 1 <= b.from <= |log| && Headed(log) && Epoched(log) && Grounded(b, log)
  {}

  lemma OpenEither(b: Base, task: Task, log: seq<Record>)
    requires Sound(b, task, log) && Sound(Genesis(b.spec), task, log) && !task.status.Terminal()
    ensures !Replayed(b, log).status.Terminal() && !Full(b, log).status.Terminal()
  {}

  lemma CompleteCovers(b: Base, task: Task, log: seq<Record>, ok: bool, result: Bytes, error: string)
    requires Covers(b, task, log) && task.status.Running?
    ensures Covers(b, Settled(task, ok, result, error), Append(log, TerminalRecord(task, ok, result, error)))
  {
    hide Sound, Replayed, Backed, Keyed;
    var rec := TerminalRecord(task, ok, result, error);
    CompleteSound(b, task, log, ok, result, error);
    CompleteSound(Genesis(b.spec), task, log, ok, result, error);
    if !Keyed(log, rec) {
      CompletionAt(b, task, log, rec);
      CompletionAt(Genesis(b.spec), task, log, rec);
    }
  }

  lemma CompletionAt(b: Base, task: Task, log: seq<Record>, rec: Record)
    requires Sound(b, task, log) && task.status.Running? && rec.IsTerminal() && rec.epoch == task.leaseEpoch
    ensures !Backed(b, log, rec.epoch) ==> Replayed(b, log + [rec]) == Replayed(b, log)
    ensures (log + [rec])[0] == log[0]
  {
    hide Replayed, Headed, Epoched, Backed, Carried, Keyed;
    OpenBase(b, task, log);
    CompletionBacked(b, log, rec);
    SoundShape(b, task, log);
  }

  /** What the row is sound for it stays sound for when the other restart takes place. */
  lemma RestartElsewhere(b: Base, task: Task, log: seq<Record>)
    requires Covers(b, task, log)
    ensures Sound(Genesis(b.spec), FinalTask(Replayed(b, log)), log)
  {
    hide Replayed, Headed, Epoched, Carried, Keyed, Backed;
    var f, g := Replayed(b, log), Genesis(b.spec);
    ReplayedFacts(b, log);
    SeedFacts(b, log);
    ReplayedFacts(g, log);
    if f.status.Terminal() && !b.row.status.Terminal() {
      SameSettled(g, log, task, b.row.commandSeq);
    }
  }

  /** Neither the error of a success nor the mailbox number is in a terminal record. */
  lemma SameSettled(g: Base, log: seq<Record>, task: Task, number: nat)
    ensures var other := (if task.status.Succeeded? then task.(error := "") else task).(commandSeq := number);
            && TerminalKey(other) == TerminalKey(task) && Carried(g, log, other) == Carried(g, log, task)
            && Logged(g, other) == Logged(g, task)
  {}

  lemma RestartCovers(b: Base, task: Task, log: seq<Record>)
    requires Covers(b, task, log)
    ensures Covers(b, FinalTask(Replayed(b, log)), log)
  {
    hide Sound, Replayed, Backed;
    RestartSound(b, task, log);
    RestartElsewhere(b, task, log);
  }

  /** The checkpoint does not load: full replay, and from now on until the next one. */
  lemma FallbackCovers(b: Base, task: Task, log: seq<Record>)
    requires Covers(b, task, log)
    ensures Covers(Genesis(b.spec), FinalTask(Full(b, log)), log)
  {
    hide Sound, Replayed, Backed;
    RestartSound(Genesis(b.spec), task, log);
  }

  lemma CheckpointCovers(b: Base, task: Task, log: seq<Record>, from: nat)
    requires Covers(b, task, log) && 1 <= from <= |log| && Quiet(task, log[from..])
    ensures Covers(Base(task, b.spec, from), task, log)
  {
    hide Replayed, Headed, Epoched, Carried, Keyed, HasStart, Unfenced, Quiet;
    var c := Base(task, b.spec, from);
    CheckpointSound(b, task, log, from);
    ReplayedFacts(c, log);
    SeedFacts(c, log);
    FenceIsLower(c, log, task.leaseEpoch);
  }

  /** The two restarts compared: where full replay settles the row, so does the other; both
      rows are the live one, but for an error kept with a success and the mailbox number. */
  lemma CheckpointKeepsMore(b: Base, task: Task, log: seq<Record>)
    requires Covers(b, task, log) && Fold(INIT, log).status.Terminal()
    ensures var other := FinalTask(Replayed(b, log));
            && FinalTask(Fold(INIT, log)) == Logged(Genesis(b.spec), task)
            && (other == task || other == Logged(b, task)) && other.status == task.status
  {
    hide Fold, Headed, Epoched, Carried, Keyed, Backed, Grounded;
    GenesisReplays(log);
    RestartReturns(b, task, log);
    RestartReturns(Genesis(b.spec), task, log);
  }
}
