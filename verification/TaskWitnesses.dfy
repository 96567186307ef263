/** Runs on which live row and log part: the inputs behind the exact conditions of
    TaskProtocol and TaskRuns (internal/control/service.go:739-827,
    internal/control/hardening.go:306-321, internal/control/checkpoint.go:92-99). */
module TaskWitnesses {
  import opened Basics
  import opened TaskLog
  import opened TaskKeys
  import opened TaskProtocol
  import opened TaskRuns

  /** A state before any checkpoint. */
  function Plain(spec: Spec, task: Task, log: seq<Record>): Live {
    Live(task, log, Genesis(spec), None)
  }

  lemma FirstLease(spec: Spec, w: string)
    requires w != ""
    ensures Run(spec, 0, [Lease(w)]) == Plain(spec, Leased(SubmittedTask(spec), w), [Submitted(spec)])
  {
  }

  /** Without a checkpoint a restart is full replay. */
  lemma PlainRestart(spec: Spec, task: Task, log: seq<Record>)
    requires Headed(log) && log[0] == Submitted(spec)
    ensures Next(Plain(spec, task, log), Restart) == Plain(spec, FinalTask(Fold(INIT, log)), log)
  {
    hide Fold, Headed, FinalTask;
    GenesisReplays(log);
  }

  lemma FoldSubmitted(spec: Spec)
    requires spec.taskID != "" && spec.leaseEpoch == 0
    ensures Fold(INIT, [Submitted(spec)]) == Apply(INIT, Submitted(spec))
  {
    FoldOne(INIT, [], Submitted(spec));
  }

  /** Completing without StartTask: the live row is settled, a restart queues the task again. */
  lemma UnstartedIsLost(spec: Spec, r: Bytes)
    requires spec.taskID != "" && spec.leaseEpoch == 0
    ensures var acts := [Lease("w"), Complete(true, r, "")];
            Run(spec, 0, acts).task.status == Succeeded && Run(spec, 0, acts + [Restart]).task.status == Queued
  {
    var done := Complete(true, r, "");
    FirstLease(spec, "w");
    assert [Lease("w")] + [done] == [Lease("w"), done];
    FoldSubmitted(spec);
    FoldOne(INIT, [Submitted(spec)], Completed(1, "w", r));
    GenesisReplays([Submitted(spec), Completed(1, "w", r)]);
  }

  /** One more act, with the states before and after it spelled out. */
  lemma Go(spec: Spec, acts: seq<Act>, act: Act, more: seq<Act>, s: Live, t: Live)
    requires more == acts + [act] && Run(spec, 0, acts) == s && Enabled(s, act) && Next(s, act) == t
    ensures Run(spec, 0, more) == t
  {
  }

  /** One more record. */
  lemma Refold(log: seq<Record>, rec: Record, more: seq<Record>)
    requires more == log + [rec]
    ensures Fold(INIT, more) == Apply(Fold(INIT, log), rec)
  {
    FoldOne(INIT, log, rec);
  }

  /** A redelivery pass that logs a lease and then fails takes that lease's completion away. */
  lemma HalfPassIsLost(spec: Spec, r: Bytes)
    requires spec.taskID != "" && spec.leaseEpoch == 0
    ensures var acts := [Lease("w"), Start, LogRedelivery, Complete(true, r, "")];
            Run(spec, 0, acts).task.status == Succeeded && Run(spec, 0, acts + [Restart]).task.status == Queued
  {
    hide Run, Fold, Apply, Next, SubmittedTask;
    var done := Complete(true, r, "");
    var a, b, c := [Lease("w")], [Lease("w"), Start], [Lease("w"), Start, LogRedelivery];
    var acts := [Lease("w"), Start, LogRedelivery, done];
    var task := Leased(SubmittedTask(spec), "w");
    var x, y := [Submitted(spec)], [Submitted(spec), Started(1, "w")];
    var z := [Submitted(spec), Started(1, "w"), Redelivered(1)];
    var log := [Submitted(spec), Started(1, "w"), Redelivered(1), Completed(1, "w", r)];
    Leasing(spec);
    HalfPassSteps(spec, task, r);
    FirstLease(spec, "w");
    Go(spec, a, Start, b, Plain(spec, task, x), Plain(spec, task, y));
    Go(spec, b, LogRedelivery, c, Plain(spec, task, y), Plain(spec, task, z));
    Go(spec, c, done, acts, Plain(spec, task, z), Plain(spec, Settled(task, true, r, ""), log));
    Go(spec, acts, Restart, acts + [Restart], Plain(spec, Settled(task, true, r, ""), log),
       Plain(spec, FinalTask(Fold(INIT, log)), log));
    Refold(x, Started(1, "w"), y);
    Refold(y, Redelivered(1), z);
    Refold(z, Completed(1, "w", r), log);
    FoldSubmitted(spec);
    HalfPassFold(spec, r);
  }

  lemma Leasing(spec: Spec)
    requires spec.leaseEpoch == 0
    ensures var task := Leased(SubmittedTask(spec), "w");
            task.leaseEpoch == 1 && task.worker == "w" && task.status == Running
  {}

  lemma HalfPassSteps(spec: Spec, task: Task, r: Bytes)
    requires task.leaseEpoch == 1 && task.worker == "w" && spec.taskID != "" && spec.leaseEpoch == 0
    ensures var x, y := [Submitted(spec)], [Submitted(spec), Started(1, "w")];
            var z := [Submitted(spec), Started(1, "w"), Redelivered(1)];
            var log := [Submitted(spec), Started(1, "w"), Redelivered(1), Completed(1, "w", r)];
            && Next(Plain(spec, task, x), Start) == Plain(spec, task, y)
            && Next(Plain(spec, task, y), LogRedelivery) == Plain(spec, task, z)
            && Next(Plain(spec, task, z), Complete(true, r, "")) == Plain(spec, Settled(task, true, r, ""), log)
            && Next(Plain(spec, Settled(task, true, r, ""), log), Restart)
               == Plain(spec, FinalTask(Fold(INIT, log)), log)
  {
    hide Fold, FinalTask;
    var log := [Submitted(spec), Started(1, "w"), Redelivered(1), Completed(1, "w", r)];
    PlainRestart(spec, Settled(task, true, r, ""), log);
  }

  lemma HalfPassFold(spec: Spec, r: Bytes)
    requires spec.taskID != "" && spec.leaseEpoch == 0
    ensures Apply(Apply(Apply(Apply(INIT, Submitted(spec)), Started(1, "w")), Redelivered(1)),
                  Completed(1, "w", r)).status == Queued
  {}

  /** A restart reuses epochs: the second completion under one key is dropped by the log, so
      a started, unfenced lease settles live but not in replay. */
  lemma ReusedEpochIsLost(spec: Spec, r: Bytes, q: Bytes)
    requires spec.taskID != "" && spec.leaseEpoch == 0
    ensures var acts := [Lease("w"), Complete(true, r, ""), Restart, Lease("w"), Start, Complete(true, q, "")];
            var s := Run(spec, 0, acts);
            && s.log == [Submitted(spec), Completed(1, "w", r), Started(1, "w")]
            && s.task.status == Succeeded && s.task.leaseEpoch == 1 && Durable(s.log, 1)
            && FinalTask(Fold(INIT, s.log)).status == Queued && !Carried(s.base, s.log, s.task)
  {
    hide Run, Fold, Apply, Next, SubmittedTask, Durable, Carried;
    var one, two := Complete(true, r, ""), Complete(true, q, "");
    var a, b, c := [Lease("w")], [Lease("w"), one], [Lease("w"), one, Restart];
    var d, e := [Lease("w"), one, Restart, Lease("w")], [Lease("w"), one, Restart, Lease("w"), Start];
    var acts := [Lease("w"), one, Restart, Lease("w"), Start, two];
    var x, y := [Submitted(spec)], [Submitted(spec), Completed(1, "w", r)];
    var log := [Submitted(spec), Completed(1, "w", r), Started(1, "w")];
    var queued := SubmittedTask(spec);
    var task := Leased(queued, "w");
    Leasing(spec);
    FoldSubmitted(spec);
    Refold(x, Completed(1, "w", r), y);
    Refold(y, Started(1, "w"), log);
    ReusedFold(spec, r);
    ReusedSteps(spec, task, r, q);
    FirstLease(spec, "w");
    Go(spec, a, one, b, Plain(spec, task, x), Plain(spec, Settled(task, true, r, ""), y));
    Go(spec, b, Restart, c, Plain(spec, Settled(task, true, r, ""), y), Plain(spec, queued, y));
    Go(spec, c, Lease("w"), d, Plain(spec, queued, y), Plain(spec, task, y));
    Go(spec, d, Start, e, Plain(spec, task, y), Plain(spec, task, log));
    Go(spec, e, two, acts, Plain(spec, task, log), Plain(spec, Settled(task, true, q, ""), log));
    ReusedCarry(spec, r, Settled(task, true, q, ""));
  }

  lemma ReusedFold(spec: Spec, r: Bytes)
    requires spec.taskID != "" && spec.leaseEpoch == 0
    ensures var s := Apply(Apply(INIT, Submitted(spec)), Completed(1, "w", r));
            && FinalTask(s) == SubmittedTask(spec) && SubmittedTask(spec).status == Queued
            && FinalTask(Apply(s, Started(1, "w"))).status == Queued
  {}

  lemma ReusedSteps(spec: Spec, task: Task, r: Bytes, q: Bytes)
    requires task == Leased(SubmittedTask(spec), "w") && task.leaseEpoch == 1 && spec.taskID != ""
      && spec.leaseEpoch == 0
    requires FinalTask(Fold(INIT, [Submitted(spec), Completed(1, "w", r)])) == SubmittedTask(spec)
    ensures var x, y := [Submitted(spec)], [Submitted(spec), Completed(1, "w", r)];
            var log := [Submitted(spec), Completed(1, "w", r), Started(1, "w")];
            && Next(Plain(spec, task, x), Complete(true, r, "")) == Plain(spec, Settled(task, true, r, ""), y)
            && Next(Plain(spec, Settled(task, true, r, ""), y), Restart) == Plain(spec, SubmittedTask(spec), y)
            && Next(Plain(spec, SubmittedTask(spec), y), Lease("w")) == Plain(spec, task, y)
            && Next(Plain(spec, task, y), Start) == Plain(spec, task, log)
            && Next(Plain(spec, task, log), Complete(true, q, "")) == Plain(spec, Settled(task, true, q, ""), log)
  {
    hide Fold, FinalTask, SubmittedTask;
    var log := [Submitted(spec), Completed(1, "w", r), Started(1, "w")];
    assert SameKey(log[1], Completed(1, "w", q));
    PlainRestart(spec, Settled(task, true, r, ""), [Submitted(spec), Completed(1, "w", r)]);
  }

  lemma ReusedCarry(spec: Spec, r: Bytes, task: Task)
    requires task.status == Succeeded && task.leaseEpoch == 1 && task.worker == "w"
    ensures var log := [Submitted(spec), Completed(1, "w", r), Started(1, "w")];
            Durable(log, 1) && !Carried(Genesis(spec), log, task)
  {
    var log := [Submitted(spec), Completed(1, "w", r), Started(1, "w")];
    assert log[2].Started?;
    assert SameKey(log[1], TerminalKey(task)) && !SameKey(log[0], TerminalKey(task));
    FirstIs(log, TerminalKey(task), 1);
    assert !log[..1][0].Started?;
  }

  /** A success reported with an error message keeps it only until the next restart. */
  lemma ErrorIsForgotten(spec: Spec, r: Bytes)
    requires spec.taskID != "" && spec.leaseEpoch == 0
    ensures var acts := [Lease("w"), Start, Complete(true, r, "late")];
            var s := Run(spec, 0, acts);
            s.task.error == "late" && FinalTask(Fold(INIT, s.log)) == s.task.(error := "")
  {
    hide Run, Fold, Apply, Next, SubmittedTask, Carried;
    var done := Complete(true, r, "late");
    var a, b, acts := [Lease("w")], [Lease("w"), Start], [Lease("w"), Start, done];
    var task := Leased(SubmittedTask(spec), "w");
    var x, y := [Submitted(spec)], [Submitted(spec), Started(1, "w")];
    var log := [Submitted(spec), Started(1, "w"), Completed(1, "w", r)];
    Leasing(spec);
    ErrorSteps(spec, task, r);
    FirstLease(spec, "w");
    Go(spec, a, Start, b, Plain(spec, task, x), Plain(spec, task, y));
    Go(spec, b, done, acts, Plain(spec, task, y), Plain(spec, Settled(task, true, r, "late"), log));
    FoldSubmitted(spec);
    Refold(x, Started(1, "w"), y);
    Refold(y, Completed(1, "w", r), log);
    ErrorFold(spec, r);
  }

  lemma ErrorSteps(spec: Spec, task: Task, r: Bytes)
    requires task.leaseEpoch == 1 && task.worker == "w"
    ensures var x, y := [Submitted(spec)], [Submitted(spec), Started(1, "w")];
            var log := [Submitted(spec), Started(1, "w"), Completed(1, "w", r)];
            && Next(Plain(spec, task, x), Start) == Plain(spec, task, y)
            && Next(Plain(spec, task, y), Complete(true, r, "late")) == Plain(spec, Settled(task, true, r, "late"), log)
  {}

  lemma ErrorFold(spec: Spec, r: Bytes)
    requires spec.taskID != "" && spec.leaseEpoch == 0
    ensures FinalTask(Apply(Apply(Apply(INIT, Submitted(spec)), Started(1, "w")), Completed(1, "w", r)))
            == Settled(Leased(SubmittedTask(spec), "w"), true, r, "")
  {}

  /** A checkpoint of the running row keeps a completion that full replay loses: the lease
      was never logged as started, but the checkpoint says it ran. */
  lemma CheckpointKeepsIt(spec: Spec, r: Bytes)
    requires spec.taskID != "" && spec.leaseEpoch == 0
    ensures var acts := [Lease("w"), ReadPosition, CopyRow, Complete(true, r, "")];
            var s := Run(spec, 0, acts);
            && s.log == [Submitted(spec), Completed(1, "w", r)] && s.task.status == Succeeded
            && Run(spec, 0, acts + [Restart]).task == s.task
            && Run(spec, 0, acts + [Fallback]).task.status == Queued
  {
    hide Run, Fold, Apply, Next, SubmittedTask, FinalTask;
    var done := Complete(true, r, "");
    var a, b, c := [Lease("w")], [Lease("w"), ReadPosition], [Lease("w"), ReadPosition, CopyRow];
    var acts := [Lease("w"), ReadPosition, CopyRow, done];
    var x, log := [Submitted(spec)], [Submitted(spec), Completed(1, "w", r)];
    var task := Leased(SubmittedTask(spec), "w");
    var base, settled := Base(task, spec, 1), Settled(task, true, r, "");
    Leasing(spec);
    FirstLease(spec, "w");
    KeptSteps(spec, task, r);
    Go(spec, a, ReadPosition, b, Plain(spec, task, x), Live(task, x, Genesis(spec), Some(1)));
    Go(spec, b, CopyRow, c, Live(task, x, Genesis(spec), Some(1)), Live(task, x, base, None));
    Go(spec, c, done, acts, Live(task, x, base, None), Live(settled, log, base, None));
    KeptFold(spec, task, r);
    KeptRestart(spec, task, r);
    Go(spec, acts, Restart, acts + [Restart], Live(settled, log, base, None), Live(settled, log, base, None));
    Go(spec, acts, Fallback, acts + [Fallback], Live(settled, log, base, None),
       Live(FinalTask(Fold(INIT, log)), log, Genesis(spec), None));
  }

  lemma KeptSteps(spec: Spec, task: Task, r: Bytes)
    requires task.leaseEpoch == 1 && task.worker == "w"
    ensures var x, log := [Submitted(spec)], [Submitted(spec), Completed(1, "w", r)];
            var base := Base(task, spec, 1);
            && Next(Plain(spec, task, x), ReadPosition) == Live(task, x, Genesis(spec), Some(1))
            && Next(Live(task, x, Genesis(spec), Some(1)), CopyRow) == Live(task, x, base, None)
            && Next(Live(task, x, base, None), Complete(true, r, ""))
               == Live(Settled(task, true, r, ""), log, base, None)
  {}

  lemma KeptFold(spec: Spec, task: Task, r: Bytes)
    requires spec.taskID != "" && spec.leaseEpoch == 0 && task == Leased(SubmittedTask(spec), "w")
    ensures var log, base := [Submitted(spec), Completed(1, "w", r)], Base(task, spec, 1);
            && FinalTask(Fold(INIT, log)).status == Queued
            && FinalTask(Replayed(base, log)) == Settled(task, true, r, "")
  {
    var log := [Submitted(spec), Completed(1, "w", r)];
    FoldSubmitted(spec);
    Refold([Submitted(spec)], Completed(1, "w", r), log);
    assert log[1..] == [] + [Completed(1, "w", r)];
    FoldOne(FromCheckpoint(task, spec), [], Completed(1, "w", r));
  }

  lemma KeptRestart(spec: Spec, task: Task, r: Bytes)
    requires spec.taskID != "" && spec.leaseEpoch == 0
    requires var log := [Submitted(spec), Completed(1, "w", r)];
             FinalTask(Replayed(Base(task, spec, 1), log)) == Settled(task, true, r, "")
    ensures var settled, log := Settled(task, true, r, ""), [Submitted(spec), Completed(1, "w", r)];
            var s := Live(settled, log, Base(task, spec, 1), None);
            Next(s, Restart) == s && Next(s, Fallback) == Plain(spec, FinalTask(Fold(INIT, log)), log)
  {
    hide Fold, FinalTask, Replayed;
    GenesisReplays([Submitted(spec), Completed(1, "w", r)]);
  }

  /** So does one copied after a half-failed pass. */
  lemma CheckpointAfterHalfPass(spec: Spec, r: Bytes)
    requires spec.taskID != "" && spec.leaseEpoch == 0
    ensures var row := Leased(SubmittedTask(spec), "w");
            var log := [Submitted(spec), Started(1, "w"), Redelivered(1)];
            var acts := [Lease("w"), Start, LogRedelivery, ReadPosition, CopyRow];
            var done := log + [Completed(1, "w", r)];
            && Run(spec, 0, acts) == Live(row, log, Base(row, spec, 3), None)
            && FinalTask(Replayed(Base(row, spec, 3), done)) == Settled(row, true, r, "")
            && FinalTask(Fold(INIT, done)).status == Queued
  {
    hide Run, Fold, Apply, Next, SubmittedTask, FinalTask, Replayed;
    var a, b, c := [Lease("w")], [Lease("w"), Start], [Lease("w"), Start, LogRedelivery];
    var d := [Lease("w"), Start, LogRedelivery, ReadPosition];
    var acts := [Lease("w"), Start, LogRedelivery, ReadPosition, CopyRow];
    var row := Leased(SubmittedTask(spec), "w");
    var x, y := [Submitted(spec)], [Submitted(spec), Started(1, "w")];
    var log := [Submitted(spec), Started(1, "w"), Redelivered(1)];
    Leasing(spec);
    FirstLease(spec, "w");
    HalfPassSteps(spec, row, r);
    CopySteps(spec, row, log);
    Go(spec, a, Start, b, Plain(spec, row, x), Plain(spec, row, y));
    Go(spec, b, LogRedelivery, c, Plain(spec, row, y), Plain(spec, row, log));
    Go(spec, c, ReadPosition, d, Plain(spec, row, log), Live(row, log, Genesis(spec), Some(3)));
    Go(spec, d, CopyRow, acts, Live(row, log, Genesis(spec), Some(3)), Live(row, log, Base(row, spec, 3), None));
    Refold(x, Started(1, "w"), y);
    Refold(y, Redelivered(1), log);
    Refold(log, Completed(1, "w", r), log + [Completed(1, "w", r)]);
    FoldSubmitted(spec);
    LateCopyFold(spec, row, log, r);
    GivenUpFold(spec, r);
  }

  lemma CopySteps(spec: Spec, row: Task, log: seq<Record>)
    requires |log| == 3
    ensures Next(Plain(spec, row, log), ReadPosition) == Live(row, log, Genesis(spec), Some(3))
    ensures Next(Live(row, log, Genesis(spec), Some(3)), CopyRow) == Live(row, log, Base(row, spec, 3), None)
  {}

  lemma LateCopyFold(spec: Spec, row: Task, log: seq<Record>, r: Bytes)
    requires spec.taskID != "" && spec.leaseEpoch == 0 && row == Leased(SubmittedTask(spec), "w") && |log| == 3
    ensures FinalTask(Replayed(Base(row, spec, 3), log + [Completed(1, "w", r)])) == Settled(row, true, r, "")
  {
    hide Fold;
    var from := FromCheckpoint(row, spec);
    assert (log + [Completed(1, "w", r)])[3..] == [] + [Completed(1, "w", r)];
    FoldNothing(from);
    FoldOne(from, [], Completed(1, "w", r));
  }

  lemma FoldNothing(s: Replay)
    ensures Fold(s, []) == s
  {}

  lemma GivenUpFold(spec: Spec, r: Bytes)
    requires spec.taskID != "" && spec.leaseEpoch == 0
    ensures var s :=
              Apply(Apply(Apply(Apply(INIT, Submitted(spec)), Started(1, "w")), Redelivered(1)), Completed(1, "w", r));
            FinalTask(s).status == Queued
  {}

  /** A checkpoint between lease and start restores a lease epoch the log never saw. */
  lemma CheckpointRunsAhead(spec: Spec)
    requires spec.taskID != "" && spec.leaseEpoch == 0
    ensures var s := Run(spec, 0, [Lease("w")]);
            && Calm(spec, 0, [Lease("w")])
            && FinalTask(Fold(FromCheckpoint(s.task, spec), s.log[1..])).leaseEpoch == 1
            && FinalTask(Fold(INIT, s.log)).leaseEpoch == 0
  {
    FirstLease(spec, "w");
    assert [Lease("w")][..0] == [];
    FoldSubmitted(spec);
    assert [Submitted(spec)][1..] == [];
  }
}
