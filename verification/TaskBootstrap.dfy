/** Restoring every task from a metadata checkpoint and the task streams
    (internal/control/checkpoint.go:276-322,678-700). */
module TaskBootstrap {
  import opened Basics
  import opened TaskLog
  import opened TaskReplay
  import TaskProtocol
  import TaskRuns
  import TaskLive

  datatype CheckpointTask = CheckpointTask(task: Task, spec: Spec)

  type Streams = map<string, seq<Record>>

  /** The rows and the scheduling queue a restart builds. */
  datatype Restored = Restored(meta: map<string, Task>, queue: seq<string>)

  /** A stream is named after the task it submits, in its first record only. */
  predicate Named(streams: Streams) {
    forall id :: id in streams ==>
      NoResubmission(streams[id], 1)
      && (streams[id] != [] && streams[id][0].Submitted? ==> streams[id][0].spec.taskID in {"", id})
  }

  function Tail(streams: Streams, id: string, k: nat): seq<Record> {
    if id in streams && k <= |streams[id]| then streams[id][k..] else []
  }

  function LastSeq(lastSeqs: map<string, nat>, id: string): nat {
    if id in lastSeqs then lastSeqs[id] else 0
  }

  function TailOf(item: CheckpointTask, lastSeqs: map<string, nat>, streams: Streams): seq<Record> {
    Tail(streams, item.task.taskID, TailFrom(LastSeq(lastSeqs, item.task.taskID)))
  }

  function Seeded(item: CheckpointTask, lastSeqs: map<string, nat>, streams: Streams): Replay {
    Fold(FromCheckpoint(item.task, item.spec), TailOf(item, lastSeqs, streams))
  }

  /** What replay says about a task is what the restart installs, or the task is left out. */
  predicate Installed(out: Restored, id: string, r: Replay) {
    if r.ok then id in out.meta && out.meta[id] == FinalTask(r) else id !in out.meta
  }

  ghost predicate Queueing(out: Restored) {
    forall id :: id in out.queue <==> id in out.meta && (out.meta[id].status.Queued? || out.meta[id].status.Running?)
  }

  function IDs(items: seq<CheckpointTask>, n: nat): set<string>
    requires n <= |items|
  {
    set i | 0 <= i < n :: items[i].task.taskID
  }

  lemma {:induction false} TailKeepsName(s: Replay, log: seq<Record>)
    requires NoResubmission(log, 0)
    ensures Fold(s, log).ok == s.ok && Fold(s, log).task.taskID == s.task.taskID
  {
    hide Apply;
    if log != [] {
      TailKeepsName(s, log[..|log| - 1]);
      ApplyMonotone(Fold(s, log[..|log| - 1]), log[|log| - 1]);
    }
  }

  lemma StreamKeepsName(streams: Streams, id: string)
    requires Named(streams) && id in streams
    ensures Fold(INIT, streams[id]).ok ==> Fold(INIT, streams[id]).task.taskID == id
  {
    hide Fold;
    var log := streams[id];
    if log == [] {
      FoldEmpty();
    } else {
      FoldFirst(log);
      FoldMonotone(log, 1, |log|);
      assert log[..|log|] == log;
    }
  }

  lemma FoldEmpty()
    ensures Fold(INIT, []) == INIT
  {}

  lemma FoldFirst(log: seq<Record>)
    requires log != []
    ensures Fold(INIT, log[..1]) == Apply(INIT, log[0])
  {
    assert log[..1][..0] == [];
  }

  /** restoreTaskReplayState. */
  method Restore(state: TaskReplayState, out: Restored) returns (more: Restored)
    requires Queueing(out) && state.View().task.taskID !in out.meta
    modifies state`spec
    ensures var s := old(state.View());
      more.meta == if s.ok && s.spec.Some? then out.meta[s.task.taskID := FinalTask(s)] else out.meta
    ensures Queueing(more)
  {
    if !state.ok || state.spec.None? {
      return out;
    }
    var task := state.Finish();
    more := out.(meta := out.meta[task.taskID := task]);
    if task.status.Queued? || task.status.Running? {
      more := more.(queue := more.queue + [task.taskID]);
    }
  }

  /** One checkpointed task with the tail of its stream. */
  method RestoreItem(item: CheckpointTask, lastSeqs: map<string, nat>, streams: Streams, out: Restored)
    returns (failed: bool, more: Restored)
    requires Named(streams) && Queueing(out) && item.task.taskID !in out.meta
    ensures failed <==> !Decodes(TailOf(item, lastSeqs, streams))
    ensures !failed ==> Queueing(more) && Installed(more, item.task.taskID, Seeded(item, lastSeqs, streams))
    ensures more.meta.Keys <= out.meta.Keys + {item.task.taskID}
    ensures forall id :: id in out.meta ==> id in more.meta && more.meta[id] == out.meta[id]
  {
    hide Decodes, Fold, TailOf, Seeded, Named, Queueing;
    var state := new TaskReplayState.FromCheckpoint(item.task, item.spec);
    failed := ReplayRecords(state, TailOf(item, lastSeqs, streams));
    if failed {
      return true, out;
    }
    ItemName(item, lastSeqs, streams);
    SeededIs(item, lastSeqs, streams);
    more := Restore(state, out);
  }

  /** The checkpointed tasks, each with the tail of its stream. */
  method RestoreItems(items: seq<CheckpointTask>, lastSeqs: map<string, nat>, streams: Streams)
    returns (failed: bool, out: Restored)
    requires Named(streams)
    requires forall i, j :: 0 <= i < j < |items| ==> items[i].task.taskID != items[j].task.taskID
    ensures failed <==> exists i :: 0 <= i < |items| && !Decodes(TailOf(items[i], lastSeqs, streams))
    ensures !failed ==> Queueing(out) && out.meta.Keys <= IDs(items, |items|)
    ensures !failed ==>
      forall i :: 0 <= i < |items| ==> Installed(out, items[i].task.taskID, Seeded(items[i], lastSeqs, streams))
  {
    hide Decodes, Fold, TailOf, Seeded, Named, Queueing;
    out := Restored(map[], []);
    NothingQueued();
    for n := 0 to |items|
      invariant forall i :: 0 <= i < n ==> Decodes(TailOf(items[i], lastSeqs, streams))
      invariant Queueing(out) && out.meta.Keys <= IDs(items, n)
      invariant forall i :: 0 <= i < n ==> Installed(out, items[i].task.taskID, Seeded(items[i], lastSeqs, streams))
    {
      failed, out := RestoreItem(items[n], lastSeqs, streams, out);
      if failed {
        return;
      }
    }
    failed := false;
  }

  lemma NothingQueued()
    ensures Queueing(Restored(map[], []))
  {}

  lemma SeededIs(item: CheckpointTask, lastSeqs: map<string, nat>, streams: Streams)
    ensures Seeded(item, lastSeqs, streams)
      == Fold(FromCheckpoint(item.task, item.spec), TailOf(item, lastSeqs, streams))
  {}

  lemma ItemName(item: CheckpointTask, lastSeqs: map<string, nat>, streams: Streams)
    requires Named(streams)
    ensures var s := Seeded(item, lastSeqs, streams);
            s.task.taskID == item.task.taskID && (s.ok <==> item.task.taskID != "") && s.spec.Some?
  {
    hide Fold;
    TailKeepsName(FromCheckpoint(item.task, item.spec), TailOf(item, lastSeqs, streams));
    TailKeepsSpec(FromCheckpoint(item.task, item.spec), TailOf(item, lastSeqs, streams));
  }

  lemma {:induction false} TailKeepsSpec(s: Replay, log: seq<Record>)
    requires NoResubmission(log, 0)
    ensures Fold(s, log).spec == s.spec
  {
    hide Apply;
    if log != [] {
      TailKeepsSpec(s, log[..|log| - 1]);
      ApplyMonotone(Fold(s, log[..|log| - 1]), log[|log| - 1]);
    }
  }

  /** bootstrapCheckpointTasks: tails on top of checkpointed rows, then full replay of the
      streams the checkpoint does not know; an undecodable record fails the restart. */
  method BootstrapCheckpointTasks(
    items: seq<CheckpointTask>, lastSeqs: map<string, nat>, streams: Streams, listed: seq<string>)
    returns (failed: bool, out: Restored)
    requires Named(streams) && (forall id :: id in listed <==> id in streams)
    requires forall i, j :: 0 <= i < j < |items| ==> items[i].task.taskID != items[j].task.taskID
    requires forall i, j :: 0 <= i < j < |listed| ==> listed[i] != listed[j]
    ensures !failed ==> Queueing(out)
    ensures !failed ==>
      forall i :: 0 <= i < |items| ==> Installed(out, items[i].task.taskID, Seeded(items[i], lastSeqs, streams))
    ensures !failed ==>
      forall id :: id in streams && id !in IDs(items, |items|) ==> Installed(out, id, Fold(INIT, streams[id]))
    ensures failed <==>
      || (exists i :: 0 <= i < |items| && !Decodes(TailOf(items[i], lastSeqs, streams)))
      || (exists id :: id in streams && id !in IDs(items, |items|) && !Decodes(streams[id]))
  {
    hide Decodes, Fold, TailOf, Seeded, Named, Queueing;
    failed, out := RestoreItems(items, lastSeqs, streams);
    if failed {
      return;
    }
    var seen := IDs(items, |items|);
    ghost var seeded := out;
    for n := 0 to |listed|
      invariant Queueing(out)
      invariant forall id :: id in seen ==> (id in out.meta <==> id in seeded.meta)
      invariant forall id :: id in seen && id in out.meta ==> out.meta[id] == seeded.meta[id]
      invariant forall id :: id in out.meta ==> id in seen || id in listed[..n]
      invariant forall id :: id in listed[..n] && id !in seen ==>
                  Decodes(streams[id]) && Installed(out, id, Fold(INIT, streams[id]))
    {
      assert listed[..n + 1] == listed[..n] + [listed[n]];
      var id := listed[n];
      if id !in seen {
        assert id !in listed[..n];
        var state := new TaskReplayState();
        var bad := ReplayRecords(state, streams[id]);
        if bad {
          return true, out;
        }
        StreamKeepsName(streams, id);
        FoldInvariant(streams[id]);
        out := RestoreStream(state, id, out);
      }
    }
    assert listed[..|listed|] == listed;
  }

  method RestoreStream(state: TaskReplayState, id: string, out: Restored) returns (more: Restored)
    requires Queueing(out) && id !in out.meta && ReplayInvariant(state.View())
    requires state.View().ok ==> state.View().task.taskID == id
    modifies state`spec
    ensures Queueing(more) && Installed(more, id, old(state.View()))
    ensures forall other :: other != id ==> (other in more.meta <==> other in out.meta)
    ensures forall other :: other != id && other in out.meta ==> more.meta[other] == out.meta[other]
  {
    if !state.ok {
      return out;
    }
    more := Restore(state, out);
  }

  /** A checkpointed actor task keeps its mailbox number through the tail - a submission
      record has none, no other record touches it - and replaying its whole log loses it:
      they agree exactly when the task had none. */
  lemma NumberLost(item: CheckpointTask, log: seq<Record>, k: nat)
    requires Headed(log) && 1 <= k <= |log|
    ensures var kept := FinalTask(Fold(FromCheckpoint(item.task, item.spec), log[k..])).commandSeq;
            var lost := FinalTask(Fold(INIT, log)).commandSeq;
            kept == item.task.commandSeq && lost == 0 && (kept == lost <==> item.task.commandSeq == 0)
  {
    hide Fold, Headed;
    var seed, tail := FromCheckpoint(item.task, item.spec), log[k..];
    HeadedTail(log, k);
    FoldMonotoneFrom(seed, tail, 0, |tail|);
    FoldMonotone(log, 1, |log|);
    FoldFirst(log);
    assert tail[..|tail|] == tail && tail[..0] == [] && log[..|log|] == log;
    TaskProtocol.NothingFolded(seed);
  }

  lemma HeadedTail(log: seq<Record>, k: nat)
    requires Headed(log) && 1 <= k <= |log|
    ensures NoResubmission(log[k..], 0) && NoResubmission(log, 1)
    ensures log[0].Submitted? && Apply(INIT, log[0]).task.commandSeq == 0
  {}

  /** On every run the restart step of TaskRuns is this procedure: the checkpointed row with
      the stream from the recorded position, the whole stream without a checkpoint. */
  lemma RestartIsBootstrap(spec: Spec, number: nat, acts: seq<TaskRuns.Act>, lastSeqs: map<string, nat>,
                           streams: Streams)
    requires spec.taskID != "" && spec.leaseEpoch == 0
    requires var s := TaskRuns.Run(spec, number, acts);
             && spec.taskID in streams && streams[spec.taskID] == s.log
             && TailFrom(LastSeq(lastSeqs, spec.taskID)) == s.base.from
    ensures var s := TaskRuns.Run(spec, number, acts);
            && FinalTask(Seeded(CheckpointTask(s.base.row, s.base.spec), lastSeqs, streams))
               == TaskRuns.Next(s, TaskRuns.Restart).task
            && FinalTask(Fold(INIT, streams[spec.taskID])) == TaskRuns.Next(s, TaskRuns.Fallback).task
  {
    hide Fold, TaskRuns.Run, TaskProtocol.Epoched, Headed, TaskProtocol.Carried, TaskProtocol.Backed;
    TaskRuns.RunSound(spec, number, acts);
    RunSpec(spec, number, acts);
    TaskProtocol.GenesisReplays(streams[spec.taskID]);
  }

  lemma {:induction false} RunSpec(spec: Spec, number: nat, acts: seq<TaskRuns.Act>)
    ensures var b := TaskRuns.Run(spec, number, acts).base; b.spec == spec
  {
    if acts != [] {
      RunSpec(spec, number, acts[..|acts| - 1]);
    }
  }

  /** A checkpoint taken anywhere in an undisturbed run restores, next to the log as it is
      later, the row that replaying the whole log gives - up to the higher lease epoch and,
      for an actor task, the mailbox number, which only the checkpoint keeps. */
  lemma RestoredAnywhere(
    spec: Spec, number: nat, acts: seq<TaskRuns.Act>, i: nat, lastSeqs: map<string, nat>, streams: Streams)
    requires spec.taskID != "" && spec.leaseEpoch == 0 && TaskRuns.Calm(spec, number, acts) && i <= |acts|
    requires LastSeq(lastSeqs, spec.taskID) <= |TaskRuns.Run(spec, number, acts[..i]).log|
    requires spec.taskID in streams && streams[spec.taskID] == TaskRuns.Run(spec, number, acts).log
    ensures var p := TaskRuns.Run(spec, number, acts[..i]).task;
            var restored := FinalTask(Seeded(CheckpointTask(p, spec), lastSeqs, streams));
            var replayed := FinalTask(Fold(INIT, streams[spec.taskID]));
            && p.commandSeq == number && replayed.commandSeq == 0
            && (if p.status.Terminal() then restored == p
                else restored == TaskLive.Numbered(TaskLive.Raised(replayed, p.leaseEpoch), number))
  {
    hide Fold, TaskRuns.Run, TaskRuns.Calm, Headed, TaskProtocol.Epoched, TaskProtocol.Carried;
    var k := TailFrom(LastSeq(lastSeqs, spec.taskID));
    TaskLive.RunExtends(spec, number, acts, i);
    TaskLive.KeepsNumber(spec, number, acts[..i]);
    RunName(spec, number, acts[..i]);
    TaskLive.CheckpointAnywhere(spec, number, acts, i, k);
    RunName(spec, number, acts);
    NumberLost(CheckpointTask(SubmittedTask(spec), spec), streams[spec.taskID], 1);
  }

  lemma RunName(spec: Spec, number: nat, acts: seq<TaskRuns.Act>)
    requires spec.taskID != "" && spec.leaseEpoch == 0 && TaskRuns.Calm(spec, number, acts)
    ensures var s := TaskRuns.Run(spec, number, acts); Headed(s.log) && s.task.taskID == spec.taskID
  {
    hide Fold, TaskRuns.Run, TaskRuns.Calm, Headed, TaskProtocol.Epoched, TaskProtocol.Carried;
    TaskRuns.RunSound(spec, number, acts);
    TaskLive.KeepsNumber(spec, number, acts);
    RunSpec(spec, number, acts);
  }
}
