/** Task lifecycle records and the two replays of one task's stream
    (internal/control/task_replay.go, internal/control/bootstrap.go:110-203). */
module TaskLog {
  import opened Basics

  datatype Status = Unspecified | Queued | Running | Succeeded | Failed
  {
    predicate Terminal() { Succeeded? || Failed? }
  }

  /** Request fields a task copies from its specification and never changes. */
  datatype Identity = Identity(
    taskName: string, workflowID: string, stepID: string, targetWorker: string,
    actorID: string, actorCallID: string, actorEpoch: nat,
    modelName: string, modelVersion: string, idemKey: string, fingerprint: string)

  datatype Spec = Spec(taskID: string, identity: Identity, leaseEpoch: nat)

  /** A metadata row. The mailbox number of an actor call is given on submission and is in no
      task record. */
  datatype Task = Task(
    taskID: string, identity: Identity, status: Status, worker: string, leaseEpoch: nat,
    result: Bytes, error: string, commandSeq: nat)

  const NO_IDENTITY: Identity := Identity("", "", "", "", "", "", 0, "", "", "", "")
  const NO_TASK: Task := Task("", NO_IDENTITY, Unspecified, "", 0, EMPTY, "", 0)

  datatype Record =
    | Submitted(spec: Spec)
    | Started(epoch: nat, worker: string)
    | Redelivered(epoch: nat)
    | Completed(epoch: nat, worker: string, result: Bytes)
    | TaskFailed(epoch: nat, worker: string, result: Bytes, error: string)
    | Unknown
    | Undecodable
  {
    predicate IsTerminal() { Completed? || TaskFailed? }
    predicate Names() { Started? || Redelivered? || IsTerminal() }
  }

  /** taskReplayState: replayed task, its lease epoch and the redelivery fence. */
  datatype Replay = Replay(spec: Option<Spec>, task: Task, status: Status, leaseEpoch: nat, fence: nat, ok: bool)

  const INIT: Replay := Replay(None, NO_TASK, Queued, 0, 0, false)

  /** taskTerminalEventApplies: a terminal record counts only for the running, unfenced lease it names; a record
      without an epoch only when no epoch was ever seen. */
  predicate TerminalApplies(status: Status, leaseEpoch: nat, fence: nat, epoch: nat) {
    if status.Terminal() then false
    else if epoch == 0 then leaseEpoch == 0 && fence == 0
    else status.Running? && epoch == leaseEpoch && epoch > fence
  }

  function SubmittedTask(spec: Spec): Task {
    Task(spec.taskID, spec.identity, Queued, "", spec.leaseEpoch, EMPTY, "", 0)
  }

  function Apply(s: Replay, rec: Record): Replay {
    match rec
    case Submitted(spec) =>
      if spec.taskID == "" then s
      else Replay(Some(spec), SubmittedTask(spec), Queued, spec.leaseEpoch, 0, true)
    case Started(epoch, worker) =>
      if s.status.Terminal() then s
      else if epoch == 0 then
        if s.leaseEpoch == 0 && s.fence == 0 then
          s.(status := Running, task := s.task.(status := Running, worker := worker))
        else s
      else if epoch <= s.fence || epoch < s.leaseEpoch then s
      else
        s.(leaseEpoch := epoch, status := Running,
           task := s.task.(status := Running, worker := worker, leaseEpoch := epoch))
    case Redelivered(epoch) =>
      if s.status.Terminal() then s
      else
        var t := s.(fence := Max(s.fence, epoch));
        if epoch == 0 || epoch >= s.leaseEpoch then
          t.(status := Queued, task := t.task.(status := Queued, worker := ""))
        else t
    case Completed(epoch, worker, result) =>
      if TerminalApplies(s.status, s.leaseEpoch, s.fence, epoch) then
        s.(status := Succeeded, task := s.task.(status := Succeeded, worker := worker, result := result, error := ""))
      else s
    case TaskFailed(epoch, worker, result, error) =>
      if TerminalApplies(s.status, s.leaseEpoch, s.fence, epoch) then
        s.(status := Failed, task := s.task.(status := Failed, worker := worker, result := result, error := error))
      else s
    case Unknown => s
    case Undecodable => s
  }

  function Fold(s: Replay, log: seq<Record>): Replay {
    if log == [] then s else Apply(Fold(s, log[..|log| - 1]), log[|log| - 1])
  }

  /** The metadata row replay hands back: work in flight goes back to the queue. */
  function FinalTask(s: Replay): Task {
    if s.status.Running? then s.task.(leaseEpoch := s.leaseEpoch, status := Queued, worker := "")
    else s.task.(leaseEpoch := s.leaseEpoch, status := s.status)
  }

  function FinalSpec(s: Replay): Option<Spec> {
    if s.spec.Some? then Some(s.spec.value.(leaseEpoch := s.leaseEpoch)) else None
  }

  /** Replay seeded from a checkpointed row: the redelivery fence is not stored. */
  function FromCheckpoint(task: Task, spec: Spec): Replay {
    var t := if task.status.Unspecified? then task.(status := Queued) else task;
    Replay(Some(spec), t, t.status, t.leaseEpoch, 0, t.taskID != "")
  }

  // ---- The second replay ------------------------------------------------------------

  datatype Brief = Brief(spec: Option<Spec>, status: Status, leaseEpoch: nat, fence: nat)

  const BRIEF: Brief := Brief(None, Queued, 0, 0)

  function ApplyBrief(s: Brief, rec: Record): Brief {
    match rec
    case Submitted(spec) => if spec.taskID == "" then s else s.(spec := Some(spec), status := Queued)
    case Started(epoch, _) =>
      if s.status.Terminal() then s
      else if epoch == 0 then
        if s.leaseEpoch == 0 && s.fence == 0 then s.(status := Running) else s
      else if epoch <= s.fence || epoch < s.leaseEpoch then s
      else s.(leaseEpoch := epoch, status := Running)
    case Redelivered(epoch) =>
      if s.status.Terminal() then s
      else s.(fence := Max(s.fence, epoch),
              status := if epoch == 0 || epoch >= s.leaseEpoch then Queued else s.status)
    case Completed(epoch, _, _) =>
      if TerminalApplies(s.status, s.leaseEpoch, s.fence, epoch) then s.(status := Succeeded) else s
    case TaskFailed(epoch, _, _, _) =>
      if TerminalApplies(s.status, s.leaseEpoch, s.fence, epoch) then s.(status := Failed) else s
    case Unknown => s
    case Undecodable => s
  }

  function FoldBrief(s: Brief, log: seq<Record>): Brief {
    if log == [] then s else ApplyBrief(FoldBrief(s, log[..|log| - 1]), log[|log| - 1])
  }

  datatype BriefResult = BriefResult(spec: Option<Spec>, status: Status, leaseEpoch: nat, ok: bool)

  function FinishBrief(s: Brief): BriefResult {
    if s.spec.None? then BriefResult(None, s.status, s.leaseEpoch, false)
    else BriefResult(Some(s.spec.value.(leaseEpoch := s.leaseEpoch)),
                     if s.status.Running? then Queued else s.status, s.leaseEpoch, true)
  }

  // ---- Invariants of every log ---------------------------------------------------------

  predicate ReplayInvariant(s: Replay) {
    && (s.status.Running? ==> s.leaseEpoch > s.fence || s.leaseEpoch == s.fence == 0)
    && !s.status.Unspecified?
    && s.ok == s.spec.Some?
    && (s.ok ==> s.task.status == s.status && s.task.leaseEpoch == s.leaseEpoch
                 && s.task.taskID == s.spec.value.taskID != "" && s.task.identity == s.spec.value.identity)
    && (!s.status.Terminal() ==> s.task.result == EMPTY && s.task.error == "")
    && (s.status.Queued? ==> s.task.worker == "")
  }

  lemma ApplyInvariant(s: Replay, rec: Record)
    requires ReplayInvariant(s)
    ensures ReplayInvariant(Apply(s, rec))
  {}

  lemma {:induction false} FoldInvariantFrom(s: Replay, log: seq<Record>)
    requires ReplayInvariant(s)
    ensures ReplayInvariant(Fold(s, log))
  {
    hide Apply;
    if log != [] {
      FoldInvariantFrom(s, log[..|log| - 1]);
      ApplyInvariant(Fold(s, log[..|log| - 1]), log[|log| - 1]);
    }
  }

  /** On every log whatever - stale, legacy and foreign records included - a running
      replay holds an unfenced lease, and the row mirrors the replayed status. */
  lemma FoldInvariant(log: seq<Record>)
    ensures ReplayInvariant(Fold(INIT, log))
  {
    FoldInvariantFrom(INIT, log);
  }

  predicate NoResubmission(log: seq<Record>, from: nat) {
    forall k :: from <= k < |log| ==> !log[k].Submitted?
  }

  lemma ApplyMonotone(s: Replay, rec: Record)
    requires !rec.Submitted?
    ensures s.leaseEpoch <= Apply(s, rec).leaseEpoch && s.fence <= Apply(s, rec).fence
    ensures s.status.Terminal() ==> Apply(s, rec) == s
    ensures Apply(s, rec).spec == s.spec && Apply(s, rec).ok == s.ok
    ensures Apply(s, rec).task.taskID == s.task.taskID && Apply(s, rec).task.identity == s.task.identity
    ensures Apply(s, rec).task.commandSeq == s.task.commandSeq
  {}

  /** What only grows or stays from one replay state to a later one. */
  predicate Grown(a: Replay, b: Replay) {
    && a.leaseEpoch <= b.leaseEpoch && a.fence <= b.fence
    && (a.status.Terminal() ==> b == a)
    && a.spec == b.spec && a.ok == b.ok
    && a.task.taskID == b.task.taskID && a.task.identity == b.task.identity && a.task.commandSeq == b.task.commandSeq
  }

  lemma {:induction false} FoldMonotoneFrom(s: Replay, log: seq<Record>, i: nat, j: nat)
    requires i <= j <= |log| && NoResubmission(log, i)
    ensures Grown(Fold(s, log[..i]), Fold(s, log[..j]))
    decreases j
  {
    hide Apply;
    if i < j {
      FoldMonotoneFrom(s, log, i, j - 1);
      FoldNext(s, log, j - 1);
      ApplyMonotone(Fold(s, log[..j - 1]), log[j - 1]);
    }
  }

  /** Between submissions the lease epoch and the fence never fall, and a terminal
      state absorbs every later record. */
  lemma FoldMonotone(log: seq<Record>, i: nat, j: nat)
    requires i <= j <= |log| && NoResubmission(log, i)
    ensures Grown(Fold(INIT, log[..i]), Fold(INIT, log[..j]))
  {
    FoldMonotoneFrom(INIT, log, i, j);
  }

  lemma FoldNext(s: Replay, log: seq<Record>, j: nat)
    requires j < |log|
    ensures Fold(s, log[..j + 1]) == Apply(Fold(s, log[..j]), log[j])
  {
    hide Apply;
    assert log[..j + 1][..j] == log[..j];
  }

  lemma FoldOne(s: Replay, log: seq<Record>, rec: Record)
    ensures Fold(s, log + [rec]) == Apply(Fold(s, log), rec)
  {
    hide Apply;
    assert (log + [rec])[..|log|] == log;
  }

  /** A log that starts with its only submission, at epoch zero. */
  predicate Headed(log: seq<Record>) {
    && log != [] && log[0].Submitted? && log[0].spec.taskID != "" && log[0].spec.leaseEpoch == 0
    && NoResubmission(log, 1)
  }

  predicate Agree(s: Replay, b: Brief) {
    s.spec == b.spec && s.status == b.status && s.leaseEpoch == b.leaseEpoch && s.fence == b.fence
  }

  lemma AgreeStep(s: Replay, b: Brief, rec: Record)
    requires Agree(s, b) && !rec.Submitted?
    ensures Agree(Apply(s, rec), ApplyBrief(b, rec))
  {}

  lemma {:induction false} ReplaysAgreeAt(log: seq<Record>, j: nat)
    requires Headed(log) && 1 <= j <= |log|
    ensures Agree(Fold(INIT, log[..j]), FoldBrief(BRIEF, log[..j]))
    decreases j
  {
    assert log[..j][..j - 1] == log[..j - 1];
    if j == 1 {
      assert log[..0] == [];
    } else {
      ReplaysAgreeAt(log, j - 1);
      AgreeStep(Fold(INIT, log[..j - 1]), FoldBrief(BRIEF, log[..j - 1]), log[j - 1]);
    }
  }

  /** The two replays give the same specification, status and lease epoch. */
  lemma ReplaysAgree(log: seq<Record>)
    requires Headed(log)
    ensures var s := Fold(INIT, log);
            var r := FinishBrief(FoldBrief(BRIEF, log));
            r.ok && s.ok && r.spec == FinalSpec(s) && r.status == FinalTask(s).status && r.leaseEpoch == s.leaseEpoch
  {
    ReplaysAgreeAt(log, |log|);
    assert log[..|log|] == log;
    FoldMonotone(log, 1, |log|);
    assert log[..1] == [log[0]] && [log[0]][..0] == [];
  }

  /** At a submission the replays stay in agreement exactly when it meets a replay that has
      its lease epoch already and no fence: only one of them resets both. */
  lemma SubmissionStep(s: Replay, b: Brief, spec: Spec)
    requires Agree(s, b) && spec.taskID != ""
    ensures Agree(Apply(s, Submitted(spec)), ApplyBrief(b, Submitted(spec)))
      <==> s.leaseEpoch == spec.leaseEpoch && s.fence == 0
  {}

  /** The submission at `j`, if there is one, meets such a replay. */
  predicate Harmless(log: seq<Record>, j: nat)
    requires j < |log|
  {
    log[j].Submitted? && log[j].spec.taskID != "" ==>
      var s := Fold(INIT, log[..j]); s.leaseEpoch == log[j].spec.leaseEpoch && s.fence == 0
  }

  predicate AgreeAfter(log: seq<Record>, j: nat)
    requires j <= |log|
  {
    Agree(Fold(INIT, log[..j]), FoldBrief(BRIEF, log[..j]))
  }

  lemma AgreeNext(log: seq<Record>, j: nat)
    requires j < |log| && AgreeAfter(log, j)
    ensures AgreeAfter(log, j + 1) <==> Harmless(log, j)
  {
    hide Apply, ApplyBrief, Agree;
    assert log[..j + 1][..j] == log[..j];
    var s, b := Fold(INIT, log[..j]), FoldBrief(BRIEF, log[..j]);
    if log[j].Submitted? {
      if log[j].spec.taskID == "" {
        Nameless(s, b, log[j].spec);
      } else {
        SubmissionStep(s, b, log[j].spec);
      }
    } else {
      AgreeStep(s, b, log[j]);
    }
  }

  lemma Nameless(s: Replay, b: Brief, spec: Spec)
    requires spec.taskID == ""
    ensures Apply(s, Submitted(spec)) == s && ApplyBrief(b, Submitted(spec)) == b
  {}

  lemma {:induction false} AgreeWhileHarmless(log: seq<Record>, j: nat)
    requires j <= |log| && forall k :: 0 <= k < j ==> Harmless(log, k)
    ensures AgreeAfter(log, j)
    decreases j
  {
    hide Harmless, AgreeAfter;
    if j == 0 {
      NothingYet(log);
    } else {
      AgreeWhileHarmless(log, j - 1);
      AgreeNext(log, j - 1);
    }
  }

  lemma NothingYet(log: seq<Record>)
    ensures AgreeAfter(log, 0)
  {
    assert log[..0] == [];
  }

  /** On every log whatever the two replays agree after every prefix exactly when every named
      submission in it is harmless. */
  lemma AgreeExactly(log: seq<Record>)
    ensures (forall j :: 0 <= j <= |log| ==> AgreeAfter(log, j)) <==> (forall j :: 0 <= j < |log| ==> Harmless(log, j))
  {
    hide Harmless, AgreeAfter;
    if forall j :: 0 <= j < |log| ==> Harmless(log, j) {
      forall j | 0 <= j <= |log| ensures AgreeAfter(log, j) {
        AgreeWhileHarmless(log, j);
      }
    }
    if forall j :: 0 <= j <= |log| ==> AgreeAfter(log, j) {
      forall j | 0 <= j < |log| ensures Harmless(log, j) {
        assert AgreeAfter(log, j) && AgreeAfter(log, j + 1);
        AgreeNext(log, j);
      }
    }
  }

  /** A log with a submission that is not: a lease was logged before it. The control plane
      keys submissions by task and writes no such log itself. */
  lemma ResubmissionSplitsReplays(spec: Spec)
    requires spec.taskID != "" && spec.leaseEpoch == 0
    ensures var log := [Submitted(spec), Started(1, "w"), Submitted(spec)];
            Fold(INIT, log).leaseEpoch == 0 && FoldBrief(BRIEF, log).leaseEpoch == 1
  {
    var one, two := [Submitted(spec)], [Submitted(spec), Started(1, "w")];
    var log := [Submitted(spec), Started(1, "w"), Submitted(spec)];
    assert one[..0] == [] && two[..1] == one && log[..2] == two;
    assert Fold(INIT, one) == Apply(INIT, one[0]) && FoldBrief(BRIEF, one) == ApplyBrief(BRIEF, one[0]);
    assert Fold(INIT, two) == Apply(Fold(INIT, one), two[1]);
    assert FoldBrief(BRIEF, two) == ApplyBrief(FoldBrief(BRIEF, one), two[1]);
  }
}
