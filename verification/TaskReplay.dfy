/** The replay procedures: the record-by-record state machine and the compatibility
    replay of specification, status and lease epoch. */
module TaskReplay {
  import opened Basics
  import opened TaskLog

  /** taskReplayState with its fields updated in place. */
  class TaskReplayState {
    var spec: Option<Spec>
    var task: Task
    var status: Status
    var leaseEpoch: nat
    var redeliveredLeaseEpoch: nat
    var ok: bool

    ghost function View(): Replay
      reads this
    {
      Replay(spec, task, status, leaseEpoch, redeliveredLeaseEpoch, ok)
    }

    constructor ()
      ensures View() == INIT
    {
      spec, task, status, leaseEpoch, redeliveredLeaseEpoch, ok := None, NO_TASK, Queued, 0, 0, false;
    }

    constructor FromCheckpoint(task: Task, spec: Spec)
      ensures View() == TaskLog.FromCheckpoint(task, spec)
    {
      var t := task;
      if t.status.Unspecified? {
        t := t.(status := Queued);
      }
      this.spec, this.task, this.status := Some(spec), t, t.status;
      this.leaseEpoch, this.redeliveredLeaseEpoch, this.ok := t.leaseEpoch, 0, t.taskID != "";
    }

    method SetStatus(s: Status, worker: string)
      modifies this`status, this`task
      ensures status == s && task == old(task).(status := s, worker := worker)
    {
      status := s;
      task := task.(status := status);
      task := task.(worker := worker);
    }

    /** applyRaw: one record; an undecodable submission is the only error. */
    method ApplyRaw(rec: Record) returns (failed: bool)
      modifies this
      ensures failed <==> rec.Undecodable?
      ensures View() == Apply(old(View()), rec)
    {
      failed := false;
      match rec {
        case Submitted(decoded) =>
          if decoded.taskID == "" {
            return;
          }
          spec := Some(decoded);
          status := Queued;
          leaseEpoch := decoded.leaseEpoch;
          redeliveredLeaseEpoch := 0;
          task := Task(decoded.taskID, decoded.identity, status, "", leaseEpoch, EMPTY, "", 0);
          ok := true;
        case Started(epoch, worker) =>
          if status.Terminal() {
            return;
          }
          if epoch == 0 {
            if leaseEpoch == 0 && redeliveredLeaseEpoch == 0 {
              SetStatus(Running, worker);
            }
            return;
          }
          if epoch <= redeliveredLeaseEpoch {
            return;
          }
          if epoch >= leaseEpoch {
            leaseEpoch := epoch;
            SetStatus(Running, worker);
            task := task.(leaseEpoch := leaseEpoch);
          }
        case Redelivered(epoch) =>
          if status.Terminal() {
            return;
          }
          if epoch > redeliveredLeaseEpoch {
            redeliveredLeaseEpoch := epoch;
          }
          if epoch == 0 || epoch >= leaseEpoch {
            SetStatus(Queued, "");
          }
        case Completed(epoch, worker, result) =>
          if TerminalApplies(status, leaseEpoch, redeliveredLeaseEpoch, epoch) {
            SetStatus(Succeeded, worker);
            task := task.(result := result, error := "");
          }
        case TaskFailed(epoch, worker, result, error) =>
          if TerminalApplies(status, leaseEpoch, redeliveredLeaseEpoch, epoch) {
            SetStatus(Failed, worker);
            task := task.(result := result, error := error);
          }
        case Unknown =>
        case Undecodable =>
          failed := true;
      }
    }

    /** finalTask. */
    method Finish() returns (t: Task)
      modifies this`spec
      ensures t == FinalTask(old(View())) && spec == FinalSpec(old(View()))
    {
      t := task;
      if spec.Some? {
        spec := Some(spec.value.(leaseEpoch := leaseEpoch));
      }
      t := t.(leaseEpoch := leaseEpoch);
      if status.Running? {
        t := t.(status := Queued, worker := "");
      } else {
        t := t.(status := status);
      }
    }
  }

  predicate Decodes(log: seq<Record>) {
    forall k :: 0 <= k < |log| ==> !log[k].Undecodable?
  }

  /** replayTaskMetadataRawEach over a seeded state. */
  method ReplayRecords(state: TaskReplayState, log: seq<Record>) returns (failed: bool)
    modifies state
    ensures failed <==> !Decodes(log)
    ensures !failed ==> state.View() == Fold(old(state.View()), log)
  {
    hide Apply;
    for i := 0 to |log|
      invariant Decodes(log[..i])
      invariant state.View() == Fold(old(state.View()), log[..i])
    {
      FoldNext(old(state.View()), log, i);
      failed := state.ApplyRaw(log[i]);
      if failed {
        return;
      }
    }
    assert log[..|log|] == log;
    failed := false;
  }

  /** replayTaskSpecEach; None is the decoding error. */
  method ReplayTaskSpec(log: seq<Record>) returns (r: Option<BriefResult>)
    ensures r.None? <==> !Decodes(log)
    ensures r.Some? ==> r.value == FinishBrief(FoldBrief(BRIEF, log))
  {
    var spec: Option<Spec> := None;
    var status := Queued;
    var leaseEpoch, redeliveredLeaseEpoch := 0, 0;
    for i := 0 to |log|
      invariant Decodes(log[..i])
      invariant Brief(spec, status, leaseEpoch, redeliveredLeaseEpoch) == FoldBrief(BRIEF, log[..i])
    {
      assert log[..i + 1][..i] == log[..i];
      match log[i] {
        case Submitted(decoded) =>
          if decoded.taskID != "" {
            spec, status := Some(decoded), Queued;
          }
        case Started(epoch, _) =>
          if status.Terminal() {
            continue;
          }
          if epoch == 0 {
            if leaseEpoch == 0 && redeliveredLeaseEpoch == 0 {
              status := Running;
            }
            continue;
          }
          if epoch <= redeliveredLeaseEpoch {
            continue;
          }
          if epoch >= leaseEpoch {
            leaseEpoch, status := epoch, Running;
          }
        case Redelivered(epoch) =>
          if status.Terminal() {
            continue;
          }
          if epoch > redeliveredLeaseEpoch {
            redeliveredLeaseEpoch := epoch;
          }
          if epoch == 0 || epoch >= leaseEpoch {
            status := Queued;
          }
        case Completed(epoch, _, _) =>
          if TerminalApplies(status, leaseEpoch, redeliveredLeaseEpoch, epoch) {
            status := Succeeded;
          }
        case TaskFailed(epoch, _, _, _) =>
          if TerminalApplies(status, leaseEpoch, redeliveredLeaseEpoch, epoch) {
            status := Failed;
          }
        case Unknown =>
        case Undecodable =>
          return None;
      }
    }
    assert log[..|log|] == log;
    if spec.None? {
      return Some(BriefResult(None, status, leaseEpoch, false));
    }
    var named := spec.value.(leaseEpoch := leaseEpoch);
    if status.Running? {
      status := Queued;
    }
    return Some(BriefResult(Some(named), status, leaseEpoch, true));
  }
}
