/** The control plane's task handlers, log first
    (internal/control/service.go:551-693,739-827,900-1017, internal/control/hardening.go:276-375),
    its metadata checkpoints and its restarts (internal/control/checkpoint.go:85-121,276-322,
    internal/control/bootstrap.go:25-94). */
module ControlPlane {
  import opened Basics
  import opened TaskLog
  import opened TaskKeys
  import opened TaskProtocol
  import opened SchedulerState
  import opened SchedulerOrder
  import opened Scheduling
  import opened ControlState
  import TaskReplay
  import TaskRuns

  const POLL_LIMIT: nat := 64

  /** pollBatchLimit. */
  function BatchLimit(requested: nat): nat {
    if requested == 0 then 1 else if requested > POLL_LIMIT then POLL_LIMIT else requested
  }

  datatype Validity = Missing | Stale | AlreadySettled | Current

  /** ValidateTaskLease. */
  function Validate(meta: map<string, Row>, id: string, worker: string, epoch: nat): Validity {
    if id !in meta then Missing
    else
      var task := meta[id].task;
      if task.status.Terminal() then AlreadySettled
      else if !task.status.Running? then Stale
      else if task.worker == "" || worker == "" || task.worker != worker then Stale
      else if task.leaseEpoch == 0 || epoch == 0 || task.leaseEpoch != epoch then Stale
      else Current
  }

  datatype SubmitReply = Accepted(task: Task) | Duplicate(task: Task) | KeyConflict | Backpressure | AppendRefused

  datatype Reply = Done | NoSuchTask | StaleLease | ActorRefused | LogRefused

  /** The caller has the task's current lease. */
  predicate HoldsLease(task: Task, worker: string, epoch: nat) {
    task.status.Running? && task.worker == worker != "" && task.leaseEpoch == epoch >= 1
  }

  /** Which calls the lease check answers, and how. */
  predicate Checked(meta: map<string, Row>, id: string, worker: string, epoch: nat, r: Reply) {
    && (r == NoSuchTask <==> id !in meta)
    && (id in meta && meta[id].task.status.Terminal() ==> r == Done)
    && (r == StaleLease <==>
          id in meta && !meta[id].task.status.Terminal() && !HoldsLease(meta[id].task, worker, epoch))
  }

  predicate Held(meta: map<string, Row>, id: string, worker: string, epoch: nat) {
    id in meta && HoldsLease(meta[id].task, worker, epoch)
  }

  /** One task is settled, in its row as the caller reports it and in its log - whose keys drop
      a second report of one lease - and nothing else changes. */
  predicate SettledBy(
    a: Rows, b: Rows, id: string, worker: string, epoch: nat, ok: bool, result: Bytes, error: string)
  {
    && id in a.meta && id in a.logs && id in b.meta && id in b.logs
    && b == a.(meta := a.meta[id := b.meta[id]], logs := a.logs[id := b.logs[id]])
    && b.logs[id] == Append(a.logs[id], if ok then Completed(epoch, worker, result)
                                        else TaskFailed(epoch, worker, result, error))
    && var before, after := a.meta[id], b.meta[id];
       && after.task == before.task.(status := if ok then Succeeded else Failed, result := result, error := error)
       && after.updated > 0 && after.created == before.created
  }

  /** A new request: its row queued and without a lease, its key, its specification, its log. */
  predicate TakenIn(a: Rows, b: Rows, spec: Spec, commandSeq: nat, task: Task) {
    var id, key := spec.taskID, spec.identity.idemKey;
    && task == Task(id, spec.identity, Queued, "", 0, EMPTY, "", commandSeq)
    && id !in a.meta && id in b.meta && b.meta[id].task == task && b.meta[id].updated == b.meta[id].created > 0
    && b.meta == a.meta[id := b.meta[id]] && b.logs == a.logs[id := [Submitted(spec)]]
    && b.specs == a.specs[id := spec] && b.bases == a.bases[id := Genesis(spec)] && b.marks == a.marks
    && b.byKey == if key == "" then a.byKey else a.byKey[key := id]
  }

  /** The rounds of one poll: what the scheduler held before each and after the last task. */
  ghost predicate Rounds(views: seq<Sched>, worker: string, looks: nat -> Look, tasks: seq<Task>) {
    && |views| == |tasks| + 1
    && forall k :: 0 <= k < |tasks| ==>
         Served(views[k], worker, looks(k), Some(tasks[k].taskID)) && TookOne(views[k], views[k + 1], tasks[k].taskID)
  }

  lemma RoundsMore(views: seq<Sched>, worker: string, looks: nat -> Look, tasks: seq<Task>, t: Task, view: Sched)
    requires Rounds(views, worker, looks, tasks)
    requires Served(views[|tasks|], worker, looks(|tasks|), Some(t.taskID))
    requires TookOne(views[|tasks|], view, t.taskID)
    ensures Rounds(views + [view], worker, looks, tasks + [t])
  {
    hide Served, TookOne;
  }

  class Control {
    var meta: map<string, Row>
    var logs: map<string, seq<Record>>
    var specs: map<string, Spec>
    var byKey: map<string, string>
    var bases: map<string, Base>
    var marks: Option<map<string, nat>>
    var scheduler: Scheduler
    const timeout: int

    ghost function State(): Rows
      reads this
    {
      Rows(meta, logs, specs, byKey, bases, marks)
    }

    ghost predicate Valid()
      reads this, scheduler, scheduler.queues.Values
    {
      scheduler.Valid() && timeout > 0 && InStep(State(), scheduler.View(), timeout, {})
    }

    constructor (timeout: int)
      requires timeout > 0
      ensures Valid() && State() == NO_ROWS && fresh(scheduler) && fresh(scheduler.queues.Values)
    {
      meta, logs, specs, byKey, bases, marks := map[], map[], map[], map[], map[], None;
      scheduler := new Scheduler();
      this.timeout := timeout;
    }

    method ReadClock() returns (now: int)
      ensures now > 0
    {
      now := *;
      if now <= 0 {
        now := 1;
      }
    }

    /** Tracks the current lease of a row. */
    method Track(id: string)
      requires id in meta && scheduler.Valid()
      modifies scheduler`taskMeta, scheduler`running, scheduler`deadlines
      ensures scheduler.Valid()
      ensures scheduler.View()
        == Tracked(old(scheduler.View()), id, DeadlineOf(meta[id], timeout), meta[id].task.leaseEpoch)
    {
      scheduler.TrackRunning(id, DeadlineOf(meta[id], timeout), meta[id].task.leaseEpoch);
    }

    /** resyncSchedulerTask. */
    method Resync(id: string)
      requires id in meta && meta[id].task.taskID == id && scheduler.Valid()
      modifies scheduler, scheduler.queues.Values
      ensures scheduler.Valid() && fresh(scheduler.queues.Values - old(scheduler.queues.Values))
      ensures scheduler.View() ==
        match meta[id].task.status
        case Queued => Enqueued(old(scheduler.View()), MetaOf(meta[id]))
        case Running => Tracked(old(scheduler.View()), id, DeadlineOf(meta[id], timeout), meta[id].task.leaseEpoch)
        case _ => Forgotten(old(scheduler.View()), id)
    {
      match meta[id].task.status {
        case Queued => scheduler.Enqueue(MetaOf(meta[id]));
        case Running => Track(id);
        case _ => scheduler.Forget(id);
      }
    }

    // ---- Redelivery ---------------------------------------------------------------------------

    /** First loop: popped leases whose row turns out not to be due are tracked again. */
    method Triage(expired: seq<Lease>) returns (valid: seq<Lease>, ghost seen: map<string, int>)
      requires scheduler.Valid() && timeout > 0 && InHand(State(), scheduler.View(), timeout, expired)
      modifies scheduler`taskMeta, scheduler`running, scheduler`deadlines
      ensures scheduler.Valid() && InHand(State(), scheduler.View(), timeout, valid)
      ensures Judged(State(), timeout, expired, valid, seen)
    {
      hide InHand, Scheduler.Valid, Judged, DistinctIds, Tracked;
      valid, seen := [], map[];
      assert valid + expired[0..] == expired;
      HeldDistinct(State(), scheduler.View(), timeout, expired);
      JudgedNone(State(), timeout);
      assert expired[..0] == [];
      for i := 0 to |expired|
        invariant scheduler.Valid() && InHand(State(), scheduler.View(), timeout, valid + expired[i..])
        invariant Judged(State(), timeout, expired[..i], valid, seen)
      {
        TriageStep(State(), scheduler.View(), timeout, valid, expired, i);
        var id := expired[i].taskID;
        var now := ReadClock();
        JudgeStep(State(), timeout, expired, i, valid, seen, now);
        seen := seen[id := now];
        if meta[id].updated == 0 || now - meta[id].updated < timeout {
          Track(id);
          continue;
        }
        valid := valid + [expired[i]];
      }
      assert valid + expired[|expired|..] == valid && expired[..|expired|] == expired;
    }

    /** Second loop: log every redelivery; when an append fails, track all leases again. `done`
        were logged before. */
    method LogRedeliveries(valid: seq<Lease>) returns (ok: bool, ghost done: nat)
      requires scheduler.Valid() && timeout > 0 && InHand(State(), scheduler.View(), timeout, valid)
      modifies this`logs, scheduler`taskMeta, scheduler`running, scheduler`deadlines
      ensures scheduler.Valid() && Progress(old(State()), State())
      ensures ok ==> InHand(State(), scheduler.View(), timeout, valid) && forall l :: l in valid ==> Fenced(State(), l)
      ensures !ok ==> InStep(State(), scheduler.View(), timeout, {})
      ensures (if ok then done == |valid| else done < |valid|) && LoggedFor(old(State()), State(), valid[..done])
    {
      hide InHand, InStep, Scheduler.Valid, Progress, Fenced, LoggedFor, DistinctIds;
      ProgressSelf(State());
      HeldDistinct(State(), scheduler.View(), timeout, valid);
      LoggedNone(State());
      assert valid[..0] == [];
      for j := 0 to |valid|
        invariant scheduler.Valid() && InHand(State(), scheduler.View(), timeout, valid)
        invariant Progress(old(State()), State()) && meta == old(meta)
        invariant forall k :: 0 <= k < j ==> Fenced(State(), valid[k])
        invariant LoggedFor(old(State()), State(), valid[..j])
      {
        HeldRow(State(), scheduler.View(), timeout, valid, j);
        var id := valid[j].taskID;
        var refused: bool := *;
        if refused {
          TrackAll(valid);
          return false, j;
        }
        ghost var c := State();
        StepLogRedelivery(c, scheduler.View(), timeout, valid, j);
        logs := logs[id := Append(logs[id], Redelivered(meta[id].task.leaseEpoch))];
        ProgressChain(old(State()), c, State());
        forall k | 0 <= k < j + 1 ensures Fenced(State(), valid[k]) {
          FencedLog(c, id, meta[id].task.leaseEpoch, valid[k]);
        }
        LoggedMore(old(State()), c, valid, j);
      }
      return true, |valid|;
    }

    /** The error path of the second loop. */
    method TrackAll(valid: seq<Lease>)
      requires scheduler.Valid() && timeout > 0 && InHand(State(), scheduler.View(), timeout, valid)
      modifies scheduler`taskMeta, scheduler`running, scheduler`deadlines
      ensures scheduler.Valid() && InStep(State(), scheduler.View(), timeout, {})
    {
      hide InHand, InStep, Scheduler.Valid;
      assert valid[0..] == valid;
      for j := 0 to |valid|
        invariant scheduler.Valid() && InHand(State(), scheduler.View(), timeout, valid[j..])
      {
        HeldRow(State(), scheduler.View(), timeout, valid[j..], 0);
        StepTrack(State(), scheduler.View(), timeout, valid[j..], 0);
        assert Without(valid[j..], 0) == valid[j + 1..];
        Track(valid[j].taskID);
      }
      assert valid[|valid|..] == [];
      NothingHeld(State(), scheduler.View(), timeout);
    }

    /** RequeueTaskIfLeaseExpired followed by Enqueue. */
    method Requeue(id: string, now: int, ghost leases: seq<Lease>)
      requires scheduler.Valid() && InHand(State(), scheduler.View(), timeout, leases) && now > 0
      requires leases != [] && leases[0].taskID == id
      modifies this`meta, scheduler, scheduler.queues.Values
      ensures scheduler.Valid() && InHand(State(), scheduler.View(), timeout, Without(leases, 0))
      ensures id in old(meta) && meta == old(meta)[id := RequeuedRow(old(meta)[id], now)]
      ensures Progress(old(State()), State())
      ensures fresh(scheduler.queues.Values - old(scheduler.queues.Values))
    {
      hide InHand, Scheduler.Valid, Scheduler.Linked, Progress, Without, Enqueued, MetaOf;
      HeldRow(State(), scheduler.View(), timeout, leases, 0);
      StepRequeue(State(), scheduler.View(), timeout, leases, 0, now);
      meta := meta[id := RequeuedRow(meta[id], now)];
      scheduler.Enqueue(MetaOf(meta[id]));
    }

    /** One round of the third loop. */
    method RequeueOne(id: string, ghost leases: seq<Lease>) returns (ghost now: int)
      requires scheduler.Valid() && timeout > 0 && InHand(State(), scheduler.View(), timeout, leases)
      requires leases != [] && leases[0].taskID == id && Fenced(State(), leases[0])
      modifies this`meta, scheduler, scheduler.queues.Values
      ensures scheduler.Valid() && InHand(State(), scheduler.View(), timeout, Without(leases, 0))
      ensures Progress(old(State()), State()) && Recovered(old(State()), State())
      ensures id in old(meta)
      ensures meta == if old(meta)[id].updated + timeout <= now
        then old(meta)[id := RequeuedRow(old(meta)[id], now)] else old(meta)
      ensures fresh(scheduler.queues.Values - old(scheduler.queues.Values))
    {
      hide InHand, InStep, Scheduler.Valid, Progress, Recovered, Fenced, Without, Scheduler.Linked, Tracked, Enqueued,
        DeadlineOf, RequeuedRow;
      ghost var c := State();
      HeldRow(c, scheduler.View(), timeout, leases, 0);
      ProgressSelf(c);
      RecoveredSelf(c, c);
      var clock := ReadClock();
      now := clock;
      if clock - meta[id].updated < timeout {
        StepTrack(c, scheduler.View(), timeout, leases, 0);
        Resync(id);
      } else {
        FencedIn(c, c, leases[0]);
        RecoveredStep(c, c, id, clock);
        Requeue(id, clock, leases);
      }
    }

    /** Third loop: requeue what is still due, track the rest again. */
    method RequeueAll(valid: seq<Lease>) returns (ghost again: map<string, int>)
      requires scheduler.Valid() && timeout > 0 && InHand(State(), scheduler.View(), timeout, valid)
      requires forall l :: l in valid ==> Fenced(State(), l)
      modifies this`meta, scheduler, scheduler.queues.Values
      ensures Valid() && Progress(old(State()), State()) && Recovered(old(State()), State())
      ensures RequeuedFor(old(State()), State(), timeout, valid, again)
      ensures fresh(scheduler.queues.Values - old(scheduler.queues.Values))
    {
      hide InHand, InStep, Scheduler.Valid, Progress, Recovered, Fenced, RequeuedFor, RequeuedRow, DistinctIds;
      again := map[];
      assert valid[0..] == valid && valid[..0] == [];
      ProgressSelf(State());
      RecoveredSelf(State(), State());
      HeldDistinct(State(), scheduler.View(), timeout, valid);
      RequeuedNone(State(), timeout);
      for j := 0 to |valid|
        invariant scheduler.Valid() && InHand(State(), scheduler.View(), timeout, valid[j..])
        invariant Progress(old(State()), State()) && Recovered(old(State()), State()) && logs == old(logs)
        invariant RequeuedFor(old(State()), State(), timeout, valid[..j], again)
        invariant fresh(scheduler.queues.Values - old(scheduler.queues.Values))
      {
        assert Without(valid[j..], 0) == valid[j + 1..] && valid[j] in valid;
        ghost var c := State();
        FencedIn(old(State()), c, valid[j]);
        ghost var now := RequeueOne(valid[j].taskID, valid[j..]);
        ProgressChain(old(State()), c, State());
        RecoveredChain(old(State()), c, State());
        RequeuedMore(old(State()), c, State(), timeout, valid, again, j, now);
        again := again[valid[j].taskID := now];
      }
      assert valid[|valid|..] == [] && valid[..|valid|] == valid;
      NothingHeld(State(), scheduler.View(), timeout);
    }

    lemma FencedIn(a: Rows, c: Rows, l: Lease)
      requires Fenced(a, l) && a.logs == c.logs
      ensures Fenced(c, l) && Fenced(c, Lease(l.taskID, 0, l.epoch))
    {}

    /** The leases popped by one reading of the clock, and what the first loop leaves of them. */
    method PopDue() returns (valid: seq<Lease>, ghost now: int, ghost expired: seq<Lease>, ghost seen: map<string, int>)
      requires Valid()
      modifies scheduler`taskMeta, scheduler`running, scheduler`deadlines
      ensures scheduler.Valid() && InHand(State(), scheduler.View(), timeout, valid)
      ensures AllDue(State(), timeout, now, expired) && DistinctIds(expired) && DistinctIds(valid)
      ensures Judged(State(), timeout, expired, valid, seen) && meta.Keys == logs.Keys
    {
      hide InHand, InStep, Scheduler.Valid, Expired, Judged, DistinctIds, AllDue;
      var clock := ReadClock();
      now := clock;
      ghost var s := scheduler.View();
      var popped := scheduler.PopExpiredRunning(clock);
      expired := popped;
      ExpiredAreDue(State(), s, timeout, now, popped, scheduler.View());
      valid, seen := Triage(popped);
      HeldDistinct(State(), scheduler.View(), timeout, valid);
    }

    /** redeliverExpiredTasksIndexed. Whatever appends fail and however the clock moves, no
        row and no lease is lost; a requeued lease is fenced in the log. `p` is what the pass
        read and was told, and decides what happens to each row. */
    method RedeliverExpired() returns (ok: bool, ghost p: Pass)
      requires Valid()
      modifies this`meta, this`logs, scheduler, scheduler.queues.Values
      ensures Valid() && Progress(old(State()), State()) && Recovered(old(State()), State())
      ensures !ok ==> State().meta == old(State()).meta
      ensures (ok <==> p.refused.None?) && PassedOver(old(State()), State(), timeout, p)
      ensures fresh(scheduler.queues.Values - old(scheduler.queues.Values))
    {
      hide InHand, InStep, Scheduler.Valid, Progress, Recovered, Fenced, Judged, LoggedFor, RequeuedFor, PassedOver,
        DistinctIds, AllDue;
      ghost var a := State();
      ghost var now, expired, seen, done;
      var valid;
      valid, now, expired, seen := PopDue();
      ok, done := LogRedeliveries(valid);
      RecoveredSelf(a, State());
      ghost var b := State();
      if !ok {
        p := Pass(now, seen, map[], Some(valid[done].taskID));
        PassTogether(a, b, b, timeout, expired, valid, done, p);
        return;
      }
      ghost var again := RequeueAll(valid);
      ProgressChain(a, b, State());
      RecoveredAfter(a, b, State());
      p := Pass(now, seen, again, None);
      PassTogether(a, b, State(), timeout, expired, valid, done, p);
    }

    lemma RecoveredAfter(a: Rows, b: Rows, c: Rows)
      requires a.meta == b.meta && Recovered(b, c)
      ensures Recovered(a, c)
    {}

    // ---- Polling --------------------------------------------------------------------------------

    /** One round of pollTaskIndexed: ask the scheduler, lease what it hands out, track it. The
        worker's view, the ranking of models and which tasks are ready are read afresh. */
    method LeaseNext(worker: string, look: Look) returns (r: Option<Task>)
      requires Valid() && worker != ""
      modifies this`meta, scheduler, scheduler.queues.Values
      ensures Valid() && Progress(old(State()), State())
      ensures fresh(scheduler.queues.Values - old(scheduler.queues.Values))
      ensures r.None? ==> State() == old(State()) && Served(scheduler.View(), worker, look, None)
      ensures Served(old(scheduler.View()), worker, look, if r.None? then None else Some(r.value.taskID))
      ensures r.Some? ==>
        && DispatchedAt(old(State()), State(), worker, look, r.value)
        && State() == old(State()).(meta := old(meta)[r.value.taskID := meta[r.value.taskID]])
        && TookOne(old(scheduler.View()), scheduler.View(), r.value.taskID)
    {
      hide InStep, Progress, Conserved, Assigned, Scheduler.Linked, Tracked, DeadlineOf, Checking, Served, TookOne;
      var w := ViewOf(worker, look);
      ghost var c, s := State(), scheduler.View();
      StepNoWork(c, s, scheduler.home, timeout, look.ready, w, look.inspected, look.ranked);
      StepLease(c, s, scheduler.home, timeout, look.ready, w, look.inspected, look.ranked, look.now);
      PollAnswers(c, s, scheduler.home, timeout, worker, look);
      var rows := Rows(meta, logs, specs, byKey, bases, marks);
      ghost var home := scheduler.home;
      var picked := scheduler.Assign(w, look.inspected, look.ranked, Checking(rows, look.ready));
      if picked.None? {
        ProgressSelf(c);
        return None;
      }
      var id := picked.value.taskID;
      StepTakes(c, s, home, timeout, worker, look, DeadlineOf(LeasedRow(meta[id], worker, look.now), timeout),
                LeasedRow(meta[id], worker, look.now).task.leaseEpoch);
      meta := meta[id := LeasedRow(meta[id], worker, look.now)];
      Track(id);
      return Some(meta[id].task);
    }

    /** The loop of pollTaskIndexed: it stops at the limit, or when nothing is left on offer. */
    method LeaseBatch(worker: string, limit: nat, looks: nat -> Look)
      returns (tasks: seq<Task>, ghost views: seq<Sched>)
      requires Valid() && worker != ""
      modifies this`meta, scheduler, scheduler.queues.Values
      ensures Valid() && Progress(old(State()), State())
      ensures |tasks| <= limit && Dispatched(old(State()), State(), worker, looks, tasks)
      ensures Rounds(views, worker, looks, tasks) && views[0] == old(scheduler.View())
      ensures if |tasks| == limit then views[|tasks|] == scheduler.View()
        else Served(scheduler.View(), worker, looks(|tasks|), None)
      ensures fresh(scheduler.queues.Values - old(scheduler.queues.Values))
    {
      hide InStep, Scheduler.Valid, Progress, Dispatched, DispatchedAt, Served, TookOne;
      tasks, views := [], [scheduler.View()];
      ProgressSelf(State());
      DispatchNone(State(), worker, looks);
      while |tasks| < limit
        invariant Valid() && Progress(old(State()), State())
        invariant |tasks| <= limit && Dispatched(old(State()), State(), worker, looks, tasks)
        invariant Rounds(views, worker, looks, tasks)
        invariant views[0] == old(scheduler.View()) && views[|tasks|] == scheduler.View()
        invariant fresh(scheduler.queues.Values - old(scheduler.queues.Values))
      {
        ghost var c := State();
        var leased := LeaseNext(worker, looks(|tasks|));
        if leased.None? {
          break;
        }
        ProgressChain(old(State()), c, State());
        DispatchMore(old(State()), c, State(), worker, looks, tasks, leased.value);
        RoundsMore(views, worker, looks, tasks, leased.value, scheduler.View());
        views := views + [scheduler.View()];
        tasks := tasks + [leased.value];
      }
    }

    lemma DispatchNone(a: Rows, worker: string, looks: nat -> Look)
      ensures Dispatched(a, a, worker, looks, [])
    {}

    /** pollTaskNow: a redelivery pass, then a batch of leases; None is the error reply. At
        least one task and at most 64 are asked for. */
    method PollTask(worker: string, requested: nat, looks: nat -> Look)
      returns (r: Option<seq<Task>>, ghost p: Pass, ghost mid: Rows, ghost views: seq<Sched>)
      requires Valid()
      modifies this`meta, this`logs, scheduler, scheduler.queues.Values
      ensures Valid() && Progress(old(State()), State())
      ensures r.None? <==> worker == "" || p.refused.Some?
      ensures r.None? ==> meta == old(meta) && State() == mid
      ensures if worker == "" then State() == old(State())
        else PassedOver(old(State()), mid, timeout, p) && Recovered(old(State()), mid)
      ensures r.Some? ==>
        && Dispatched(mid, State(), worker, looks, r.value) && Rounds(views, worker, looks, r.value)
        && InStep(mid, views[0], timeout, {})
        && (|r.value| <= 1 || |r.value| <= requested) && |r.value| <= 64
        && (|r.value| == 0 || (|r.value| < requested && |r.value| < 64) ==>
              Served(scheduler.View(), worker, looks(|r.value|), None))
      ensures fresh(scheduler.queues.Values - old(scheduler.queues.Values))
    {
      hide InStep, Scheduler.Valid, Progress, Dispatched, Recovered, PassedOver, Rounds, Served;
      p, mid, views := Pass(0, map[], map[], None), State(), [];
      if worker == "" {
        ProgressSelf(State());
        return None, p, mid, views;
      }
      var ok;
      ok, p := RedeliverExpired();
      mid := State();
      if !ok {
        return None, p, mid, views;
      }
      var tasks;
      tasks, views := LeaseBatch(worker, BatchLimit(requested), looks);
      ProgressChain(old(State()), mid, State());
      return Some(tasks), p, mid, views;
    }

    // ---- Start, complete, submit ------------------------------------------------------------------

    /** StartTask: only the current lease is logged as started. */
    method StartTask(id: string, worker: string, epoch: nat) returns (r: Reply)
      requires Valid()
      modifies this`logs
      ensures Valid() && Progress(old(State()), State())
      ensures Checked(meta, id, worker, epoch, r) && (Held(meta, id, worker, epoch) ==> r == Done || r == LogRefused)
      ensures if Held(meta, id, worker, epoch) && r == Done
        then id in old(logs) && logs == old(logs)[id := Append(old(logs)[id], Started(epoch, worker))]
        else logs == old(logs)
    {
      hide InStep, Scheduler.Valid, Progress;
      ProgressSelf(State());
      match Validate(meta, id, worker, epoch) {
        case Missing => return NoSuchTask;
        case Stale => return StaleLease;
        case AlreadySettled => return Done;
        case Current =>
          var refused: bool := *;
          if refused {
            return LogRefused;
          }
          StepStart(State(), scheduler.View(), timeout, id, worker);
          logs := logs[id := Append(logs[id], Started(epoch, worker))];
          return Done;
      }
    }

    /** CompleteTask: a settled task is acknowledged again, a lease that is not current is
        refused, and the current one is logged before its row is settled. */
    method CompleteTask(id: string, worker: string, epoch: nat, succeeded: bool, result: Bytes, error: string)
      returns (r: Reply)
      requires Valid()
      modifies this`meta, this`logs, scheduler, scheduler.queues.Values
      ensures Valid() && Progress(old(State()), State())
      ensures Checked(old(meta), id, worker, epoch, r)
      ensures r == ActorRefused ==> old(meta)[id].task.identity.actorID != ""
      ensures if Held(old(meta), id, worker, epoch) && r == Done
        then SettledBy(old(State()), State(), id, worker, epoch, succeeded, result, error)
        else State() == old(State())
      ensures fresh(scheduler.queues.Values - old(scheduler.queues.Values))
    {
      hide InStep, Scheduler.Valid, Progress, Settled, TerminalRecord, SettledBy;
      ProgressSelf(State());
      match Validate(meta, id, worker, epoch) {
        case Missing => return NoSuchTask;
        case Stale => return StaleLease;
        case AlreadySettled =>
          StepResettle(State(), scheduler.View(), timeout, id);
          scheduler.CompleteRunning(id);
          return Done;
        case Current =>
          var applied: bool, refused: bool := *, *;
          if meta[id].task.identity.actorID != "" && !applied {
            return ActorRefused;
          }
          if refused {
            return LogRefused;
          }
          Settle(id, succeeded, result, error);
          return Done;
      }
    }

    /** The terminal record, the settled row, the freed lease. */
    method Settle(id: string, succeeded: bool, result: Bytes, error: string)
      requires Valid() && id in meta && meta[id].task.status.Running?
      modifies this`meta, this`logs, scheduler, scheduler.queues.Values
      ensures Valid() && Progress(old(State()), State())
      ensures SettledBy(old(State()), State(), id, old(meta)[id].task.worker, old(meta)[id].task.leaseEpoch,
                        succeeded, result, error)
      ensures fresh(scheduler.queues.Values - old(scheduler.queues.Values))
    {
      hide InStep, Scheduler.Valid, Scheduler.Linked, Progress, Settled, TerminalRecord, Forgotten, SettledBy;
      var now := ReadClock();
      StepSettle(State(), scheduler.View(), timeout, id, succeeded, result, error, now);
      logs := logs[id := Append(logs[id], TerminalRecord(meta[id].task, succeeded, result, error))];
      meta := meta[id := SettledRow(meta[id], succeeded, result, error, now)];
      scheduler.CompleteRunning(id);
      SettlesRow(old(State()), id, succeeded, result, error, now);
    }

    lemma SettlesRow(a: Rows, id: string, ok: bool, result: Bytes, error: string, now: int)
      requires id in a.meta && id in a.logs && now > 0
      ensures SettledBy(a, SettledRows(a, id, ok, result, error, now), id, a.meta[id].task.worker,
                        a.meta[id].task.leaseEpoch, ok, result, error)
    {
      hide Append;
    }

    /** enqueueTaskWithMetadata for a task ID no stream has: a known key returns its task or
        conflicts, backpressure and failed appends change nothing, else the task is queued. */
    method SubmitTask(spec: Spec, commandSeq: nat, slow: bool, highWatermark: nat) returns (r: SubmitReply)
      requires Valid() && spec.taskID != "" && spec.taskID !in logs && spec.leaseEpoch == 0
      modifies this`meta, this`logs, this`specs, this`byKey, this`bases, scheduler, scheduler.queues.Values
      ensures Valid() && Progress(old(State()), State())
      ensures spec.identity.idemKey in old(byKey) <==> r.Duplicate? || r.KeyConflict?
      ensures spec.identity.idemKey in old(byKey) ==>
        var id := old(byKey)[spec.identity.idemKey];
        id in meta && var known := meta[id].task;
        r == if known.identity.fingerprint == "" || known.identity.fingerprint == spec.identity.fingerprint
             then Duplicate(known) else KeyConflict
      ensures r.Backpressure? <==>
        spec.identity.idemKey !in old(byKey) && (slow || |old(scheduler.queued)| >= highWatermark > 0)
      ensures if r.Accepted? then
          && TakenIn(old(State()), State(), spec, commandSeq, r.task)
          && Awaits(scheduler.View(), spec.taskID, meta[spec.taskID])
          && var line := Line(scheduler.View(), QueueOf(spec.identity)); line[|line| - 1] == spec.taskID
        else State() == old(State())
      ensures fresh(scheduler.queues.Values - old(scheduler.queues.Values))
    {
      hide InStep, Scheduler.Valid, Scheduler.Linked, Progress, Enqueued, MetaOf, Kept, TakenIn, Awaits, QueueOf;
      var key := spec.identity.idemKey;
      ProgressSelf(State());
      KnownKeys(State(), scheduler.View(), timeout);
      if key in byKey {
        var known := meta[byKey[key]].task;
        if known.identity.fingerprint == "" || known.identity.fingerprint == spec.identity.fingerprint {
          return Duplicate(known);
        }
        return KeyConflict;
      }
      if slow || (highWatermark > 0 && |scheduler.queued| >= highWatermark) {
        return Backpressure;
      }
      var refused: bool := *;
      if refused {
        return AppendRefused;
      }
      Admit(spec, commandSeq);
      return Accepted(meta[spec.taskID].task);
    }

    /** The new task is recorded and queued, behind everything in its queue. */
    method Admit(spec: Spec, commandSeq: nat)
      requires Valid() && spec.taskID != "" && spec.taskID !in meta && spec.leaseEpoch == 0
      requires spec.identity.idemKey !in byKey
      modifies this`meta, this`logs, this`specs, this`byKey, this`bases, scheduler, scheduler.queues.Values
      ensures Valid() && Progress(old(State()), State())
      ensures spec.taskID in meta && TakenIn(old(State()), State(), spec, commandSeq, meta[spec.taskID].task)
      ensures Awaits(scheduler.View(), spec.taskID, meta[spec.taskID])
      ensures var line := Line(scheduler.View(), QueueOf(spec.identity)); line != [] && line[|line| - 1] == spec.taskID
      ensures fresh(scheduler.queues.Values - old(scheduler.queues.Values))
    {
      hide InStep, Scheduler.Valid, Scheduler.Linked, Progress, Enqueued, MetaOf, SubmittedRows, SubmittedRow, TakenIn,
        Awaits, QueueOf, Line;
      var clock := ReadClock();
      StepSubmit(State(), scheduler.View(), timeout, spec, clock, commandSeq);
      AdmitsRow(State(), scheduler.View(), timeout, spec, clock, commandSeq);
      Record(spec, clock, commandSeq);
      scheduler.Enqueue(MetaOf(SubmittedRow(spec, clock, commandSeq)));
    }

    lemma AdmitsRow(a: Rows, s: Sched, timeout: int, spec: Spec, now: int, commandSeq: nat)
      requires InStep(a, s, timeout, {}) && spec.taskID !in a.meta && now > 0
      requires spec.taskID != "" && spec.leaseEpoch == 0
      ensures var b := SubmittedRows(a, spec, now, commandSeq);
        var t := Enqueued(s, MetaOf(SubmittedRow(spec, now, commandSeq)));
        && spec.taskID in b.meta && TakenIn(a, b, spec, commandSeq, b.meta[spec.taskID].task)
        && Awaits(t, spec.taskID, b.meta[spec.taskID])
        && var line := Line(t, QueueOf(spec.identity)); line != [] && line[|line| - 1] == spec.taskID
    {
      hide KeyedOnce, Ledger;
      assert AgreeAt(a, s, timeout, {}, spec.taskID);
    }

    /** The submission record, then row, key and specification. */
    method Record(spec: Spec, clock: int, commandSeq: nat)
      modifies this`meta, this`logs, this`specs, this`byKey, this`bases
      ensures State() == SubmittedRows(old(State()), spec, clock, commandSeq)
    {
      logs, bases := logs[spec.taskID := [Submitted(spec)]], bases[spec.taskID := Genesis(spec)];
      Store(spec.taskID, SubmittedRow(spec, clock, commandSeq), spec);
    }

    /** CreateTask and the specification cache. */
    method Store(id: string, row: Row, spec: Spec)
      modifies this`meta, this`specs, this`byKey
      ensures meta == old(meta)[id := row] && specs == old(specs)[id := spec]
      ensures byKey == if row.task.identity.idemKey == "" then old(byKey)
        else old(byKey)[row.task.identity.idemKey := id]
    {
      meta := meta[id := row];
      if row.task.identity.idemKey != "" {
        byKey := byKey[row.task.identity.idemKey := id];
      }
      specs := specs[id := spec];
    }

    lemma KnownKeys(c: Rows, s: Sched, timeout: int)
      requires InStep(c, s, timeout, {})
      ensures forall key :: key in c.byKey ==> c.byKey[key] in c.meta
      ensures c.meta.Keys == c.logs.Keys
    {}

    // ---- Checkpoints ---------------------------------------------------------------------------------

    /** CreateMetadataCheckpoint, first half: the positions of all streams. Any handler may
        come between the two halves. */
    method ReadPositions()
      requires Valid()
      modifies this`marks
      ensures Valid() && State() == Marked(old(State()))
      ensures marks.Some? && marks.value.Keys == logs.Keys
      ensures forall id :: id in logs ==> marks.value[id] == |logs[id]|
    {
      hide InStep, Scheduler.Valid;
      StepMark(State(), scheduler.View(), timeout);
      marks := Some(map id | id in logs :: |logs[id]|);
    }

    /** Second half: the rows as they are now, stored as the newest checkpoint. One that a
        crash keeps from being stored never comes to this. */
    method CopyRows()
      requires Valid() && marks.Some?
      modifies this`bases, this`marks
      ensures Valid() && meta.Keys == old(bases).Keys && State() == Copied(old(State()))
      ensures bases.Keys == meta.Keys && forall id :: id in meta ==>
        && bases[id].row == meta[id].task
        && bases[id].from == if id in old(marks).value && old(marks).value[id] > 1 then old(marks).value[id] else 1
    {
      hide InStep, Scheduler.Valid;
      StepCopy(State(), scheduler.View(), timeout);
      bases := map id | id in meta ::
        Base(meta[id].task, bases[id].spec, TailFrom(if id in marks.value then marks.value[id] else 0));
      marks := None;
    }

    // ---- Restart ------------------------------------------------------------------------------------

    /** BootstrapFromLog: a new process rebuilds rows, specifications and queues from the newest
        checkpoint and the task streams, in any order; of the old one only they are left.
        `loaded` are the tasks restored from the checkpoint: all of them if it loads, none if
        there is none, and some if restoring it fails part way and full replay follows. */
    method Restart(order: seq<string>, loaded: set<string>)
      requires Valid() && (forall id :: id in logs <==> id in order)
      requires forall i, j :: 0 <= i < j < |order| ==> order[i] != order[j]
      modifies this`meta, this`specs, this`byKey, this`bases, this`marks, this`scheduler
      ensures Valid() && fresh(scheduler) && fresh(scheduler.queues.Values)
      ensures logs == old(logs) && meta.Keys == old(meta).Keys == bases.Keys == old(bases).Keys && marks == None
      ensures forall id :: id in old(meta) ==> SurvivesIn(old(State()), State(), loaded, id)
    {
      hide InStep, Scheduler.Valid, Scheduler.Linked, SurvivesIn, Ledger, KeyedOnce, RestoredAs;
      ghost var a := State();
      var stored := bases;
      InStepParts(a, scheduler.View(), timeout);
      Lose();
      RestoreStreams(a, stored, loaded, order);
      ghost var c := State();
      InStepParts(c, scheduler.View(), timeout);
      RestartSurvivors(a, c, loaded);
    }

    /** A new process has the streams and the stored checkpoint only. */
    method Lose()
      modifies this`meta, this`specs, this`byKey, this`bases, this`marks, this`scheduler
      ensures State() == NO_ROWS.(logs := old(logs))
      ensures scheduler.Valid() && scheduler.View() == EMPTY_SCHED && fresh(scheduler) && fresh(scheduler.queues.Values)
    {
      meta, specs, byKey, bases, marks := map[], map[], map[], map[], None;
      scheduler := new Scheduler();
    }

    method RestoreStreams(ghost a: Rows, stored: map<string, Base>, loaded: set<string>, order: seq<string>)
      requires Ledger(a) && KeyedOnce(a) && logs == a.logs && logs.Keys == a.meta.Keys && stored == a.bases
        && timeout > 0
      requires meta == map[] && specs == map[] && byKey == map[] && bases == map[] && marks == None
      requires scheduler.Valid() && scheduler.View() == EMPTY_SCHED
      requires forall id :: id in logs <==> id in order
      requires forall i, j :: 0 <= i < j < |order| ==> order[i] != order[j]
      modifies this`meta, this`specs, this`byKey, this`bases, scheduler, scheduler.queues.Values
      ensures Valid() && fresh(scheduler.queues.Values - old(scheduler.queues.Values))
      ensures meta.Keys == a.meta.Keys
      ensures forall id :: id in meta ==> RestoredAs(a, State(), loaded, id)
    {
      hide InStep, Scheduler.Valid, Scheduler.Linked, Restoring, RestoredAs, Ledger, KeyedOnce;
      ghost var c := NO_ROWS;
      StepEmpty(a, timeout, loaded, order);
      for i := 0 to |order|
        invariant scheduler.Valid() && fresh(scheduler.queues.Values - old(scheduler.queues.Values))
        invariant InStep(c, scheduler.View(), timeout, {}) && Restoring(a, c, loaded, order, i) && c.marks == None
        invariant meta == c.meta && specs == c.specs && byKey == c.byKey && bases == c.bases
      {
        assert order[i] in order;
        c := RestoreStream(a, c, stored, loaded, order, i);
      }
      InStepParts(c, scheduler.View(), timeout);
      RestoredAll(a, c, loaded, order);
    }

    lemma InStepParts(c: Rows, s: Sched, timeout: int)
      requires InStep(c, s, timeout, {})
      ensures Ledger(c) && KeyedOnce(c) && c.meta.Keys == c.logs.Keys == c.bases.Keys
    {}

    /** One stream: replay it on its base and restore what replay gives
        (restoreTaskReplayState). */
    method RestoreStream(
      ghost a: Rows, ghost c: Rows, stored: map<string, Base>, loaded: set<string>, order: seq<string>, i: nat)
      returns (ghost d: Rows)
      requires Ledger(a) && KeyedOnce(a) && i < |order| && order[i] in a.meta && order[i] !in order[..i]
      requires scheduler.Valid() && InStep(c, scheduler.View(), timeout, {}) && Restoring(a, c, loaded, order, i)
      requires meta == c.meta && specs == c.specs && byKey == c.byKey && bases == c.bases && c.marks == None
      requires logs == a.logs && order[i] in logs && stored == a.bases
      modifies this`meta, this`specs, this`byKey, this`bases, scheduler, scheduler.queues.Values
      ensures scheduler.Valid() && fresh(scheduler.queues.Values - old(scheduler.queues.Values))
      ensures InStep(d, scheduler.View(), timeout, {}) && Restoring(a, d, loaded, order, i + 1) && d.marks == None
      ensures meta == d.meta && specs == d.specs && byKey == d.byKey && bases == d.bases
    {
      hide InStep, Scheduler.Valid, Scheduler.Linked, Restoring, Fold, Ledger, KeyedOnce, FinalTask, Enqueued, MetaOf,
        KeptAt, StartFrom, Tail, TaskReplay.Decodes, TaskRuns.Steady;
      var id := order[i];
      RowOf(a, id);
      var known := stored[id];
      Replayable(a, id);
      var base := StartFrom(known, id in loaded);
      var task, spec := ReplayOne(known, logs[id], id in loaded);
      var now := ReadClock();
      StepRestore(a, c, scheduler.View(), timeout, loaded, order, i, now, spec);
      var row := Row(task, now, now);
      d := RestoredRows(c, id, base, a.logs[id], now, spec);
      bases := bases[id := base];
      Install(id, row, spec);
    }

    /** bootstrapCheckpointTasks for a checkpointed task, bootstrapTasks for one replayed in full. */
    static method ReplayOne(base: Base, log: seq<Record>, loaded: bool) returns (task: Task, spec: Spec)
      requires 1 <= base.from <= |log| && TaskReplay.Decodes(log) && Headed(log) && log[0] == Submitted(base.spec)
      ensures task == FinalTask(Replayed(StartFrom(base, loaded), log))
    {
      hide Fold, FinalTask, Headed;
      var state, failed;
      if loaded {
        state := new TaskReplay.TaskReplayState.FromCheckpoint(base.row, base.spec);
        failed := TaskReplay.ReplayRecords(state, log[base.from..]);
      } else {
        GenesisReplays(log);
        state := new TaskReplay.TaskReplayState();
        failed := TaskReplay.ReplayRecords(state, log);
      }
      task := state.Finish();
      spec := if state.spec.Some? then state.spec.value else base.spec;
    }

    lemma Replayable(a: Rows, id: string)
      requires id in a.meta && id in a.logs && id in a.bases && KeptAt(a, id)
      ensures var base, log := a.bases[id], a.logs[id];
              && 1 <= base.from <= |log| && TaskReplay.Decodes(log) && Headed(log) && log[0] == Submitted(base.spec)
    {
      hide Replayed, Carried, Keyed, TaskReplay.Decodes;
    }

    /** CreateTask, the specification cache, and the queue. */
    method Install(id: string, row: Row, spec: Spec)
      requires scheduler.Valid()
      modifies this`meta, this`specs, this`byKey, scheduler, scheduler.queues.Values
      ensures meta == old(meta)[id := row] && specs == old(specs)[id := spec]
      ensures byKey == if row.task.identity.idemKey == "" then old(byKey)
        else old(byKey)[row.task.identity.idemKey := id]
      ensures scheduler.Valid() && fresh(scheduler.queues.Values - old(scheduler.queues.Values))
      ensures row.task.status.Queued? || row.task.status.Running? ==>
        scheduler.View() == Enqueued(old(scheduler.View()), MetaOf(row))
      ensures !row.task.status.Queued? && !row.task.status.Running? ==> scheduler.View() == old(scheduler.View())
    {
      hide Scheduler.Valid, Scheduler.Linked, Enqueued, MetaOf;
      Store(id, row, spec);
      if row.task.status.Queued? || row.task.status.Running? {
        scheduler.Enqueue(MetaOf(row));
      }
    }
  }
}
