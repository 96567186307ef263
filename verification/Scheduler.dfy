/** The indexed scheduler: queues, lease tracking and the deadline heap
    (internal/control/scheduler.go:43-400,530-541). */
module Scheduling {
  import opened Basics
  import opened SchedulerState
  import opened TaskDeques

  class Scheduler {
    /** readyGeneral, byTarget, actorPending and llmByModel under one key. */
    var queues: map<QueueKey, TaskDeque>
    var taskMeta: map<string, SchedMeta>
    var queued: map<string, Kind>
    var running: map<string, Lease>
    var deadlines: multiset<Lease>
    ghost var home: map<string, QueueKey>

    /** What the queues hold. */
    ghost var lines: map<QueueKey, seq<string>>

    ghost predicate Linked()
      reads this`queues, this`lines, queues.Values
    {
      && GeneralQueue in queues && lines.Keys == queues.Keys
      && (forall key :: key in queues ==> queues[key].Valid() && queues[key].Contents() == lines[key])
      && (forall a, b :: a in queues && b in queues && a != b ==> queues[a] != queues[b])
    }

    ghost function View(): Sched
      reads this
    {
      Sched(lines, taskMeta, queued, running, deadlines)
    }

    ghost predicate Valid()
      reads this, queues.Values
    {
      Linked() && Conserved(View(), home)
    }

    constructor ()
      ensures Valid() && View() == EMPTY_SCHED && fresh(queues.Values)
    {
      var general := new TaskDeque();
      queues, lines := map[GeneralQueue := general], map[GeneralQueue := []];
      taskMeta, queued, running, deadlines, home := map[], map[], map[], multiset{}, map[];
    }

    /** queueForLocked: the queue of a key, created when it is missing. */
    method QueueFor(key: QueueKey) returns (q: TaskDeque)
      requires Linked()
      modifies this`queues, this`lines
      ensures Linked() && key in queues && queues[key] == q
      ensures View() == old(WithLine(View(), key, Line(View(), key)))
      ensures fresh(queues.Values - old(queues.Values))
    {
      hide Conserved, TaskDeque.Valid, TaskDeque.Contents;
      if key !in queues {
        q := new TaskDeque();
        queues := queues[key := q];
        lines := lines[key := []];
      } else {
        q := queues[key];
      }
    }

    method PushBackInto(q: TaskDeque, ghost key: QueueKey, taskID: string)
      requires Linked() && key in queues && queues[key] == q
      modifies this`lines, q
      ensures Linked() && View() == WithLine(old(View()), key, Line(old(View()), key) + [taskID])
    {
      hide TaskDeque.Valid, TaskDeque.Contents;
      q.PushBack(taskID);
      lines := lines[key := q.Contents()];
    }

    method PushFrontInto(q: TaskDeque, ghost key: QueueKey, taskID: string)
      requires Linked() && key in queues && queues[key] == q
      modifies this`lines, q
      ensures Linked() && View() == WithLine(old(View()), key, [taskID] + Line(old(View()), key))
    {
      hide TaskDeque.Valid, TaskDeque.Contents;
      q.PushFront(taskID);
      lines := lines[key := q.Contents()];
    }

    /** queueForLocked followed by PushFront or PushBack. */
    method Push(key: QueueKey, taskID: string, front: bool)
      requires Linked()
      modifies this`queues, this`lines, queues.Values
      ensures Linked() && fresh(queues.Values - old(queues.Values))
      ensures View() == WithLine(old(View()), key,
        if front then [taskID] + Line(old(View()), key) else Line(old(View()), key) + [taskID])
    {
      hide Scheduler.Linked, TaskDeque.Valid, TaskDeque.Contents;
      var q := QueueFor(key);
      if front {
        PushFrontInto(q, key, taskID);
      } else {
        PushBackInto(q, key, taskID);
      }
    }

    method Enqueue(meta: SchedMeta)
      requires Valid()
      modifies this, queues.Values
      ensures Valid() && View() == Enqueued(old(View()), meta)
      ensures fresh(queues.Values - old(queues.Values))
    {
      hide Conserved, Scheduler.Linked, TaskDeque.Valid, TaskDeque.Contents, Line;
      if meta.taskID == "" {
        return;
      }
      PushOrRefresh(View(), home, meta, false);
      home := HomeAfter(home, View(), Op.Enqueue(meta));
      if meta.taskID in queued {
        taskMeta := taskMeta[meta.taskID := meta];
        return;
      }
      taskMeta := taskMeta[meta.taskID := meta];
      queued := queued[meta.taskID := meta.Route().Kind()];
      Push(meta.Route(), meta.taskID, false);
    }

    method ReturnFront(meta: SchedMeta)
      requires Valid()
      modifies this, queues.Values
      ensures Valid() && View() == Returned(old(View()), meta)
      ensures fresh(queues.Values - old(queues.Values))
    {
      hide Conserved, Scheduler.Linked, TaskDeque.Valid, TaskDeque.Contents, Line;
      if meta.taskID == "" {
        return;
      }
      PushOrRefresh(View(), home, meta, true);
      home := HomeAfter(home, View(), Op.ReturnFront(meta));
      if meta.taskID in queued {
        taskMeta := taskMeta[meta.taskID := meta];
        return;
      }
      taskMeta := taskMeta[meta.taskID := meta];
      queued := queued[meta.taskID := meta.Route().Kind()];
      Push(meta.Route(), meta.taskID, true);
    }

    method Forget(taskID: string)
      requires Valid()
      modifies this`taskMeta, this`queued, this`running
      ensures Valid() && View() == Forgotten(old(View()), taskID)
    {
      hide Conserved, Scheduler.Linked, TaskDeque.Valid, TaskDeque.Contents;
      if taskID == "" {
        return;
      }
      ForgetConserves(View(), home, taskID);
      taskMeta := taskMeta - {taskID};
      queued := queued - {taskID};
      running := running - {taskID};
    }

    method CompleteRunning(taskID: string)
      requires Valid()
      modifies this`taskMeta, this`queued, this`running
      ensures Valid() && View() == Forgotten(old(View()), taskID)
    {
      hide Conserved, Scheduler.Linked, TaskDeque.Valid, TaskDeque.Contents;
      if taskID == "" {
        return;
      }
      ForgetConserves(View(), home, taskID);
      running := running - {taskID};
      taskMeta := taskMeta - {taskID};
      queued := queued - {taskID};
    }

    method TrackRunning(taskID: string, deadline: int, epoch: nat)
      requires Valid()
      modifies this`taskMeta, this`running, this`deadlines
      ensures Valid() && View() == Tracked(old(View()), taskID, deadline, epoch)
    {
      hide Conserved, Scheduler.Linked, TaskDeque.Valid, TaskDeque.Contents;
      if taskID == "" || deadline <= 0 || epoch == 0 {
        return;
      }
      TrackConserves(View(), home, taskID, deadline, epoch);
      var lease := Lease(taskID, deadline, epoch);
      running := running[taskID := lease];
      deadlines := deadlines + multiset{lease};
      if taskID in taskMeta {
        taskMeta := taskMeta[taskID := taskMeta[taskID].(leaseEpoch := epoch)];
      }
    }

    /** maybeCleanupQueueLocked. */
    method MaybeCleanupQueue(q: TaskDeque, key: QueueKey, meta: SchedMeta)
      requires Linked() && key in queues && queues[key] == q
      modifies this`queues, this`lines
      ensures Linked() && View() == Cleanup(old(View()), key, meta)
      ensures q.Valid() && q.Contents() == old(q.Contents()) == Line(View(), key)
      ensures queues == old(queues) || (queues == old(queues) - {key} && q.Contents() == [])
    {
      hide Conserved, TaskDeque.Valid, TaskDeque.Contents;
      var n := q.Len();
      if n > 0 {
        return;
      }
      var spare := meta.Spare(key.Kind());
      if spare.Some? && spare.value in queues && queues[spare.value] == q {
        queues := queues - {spare.value};
        lines := lines - {spare.value};
      }
    }

    /** One pop: the line of `key` loses its head. */
    method Pop(q: TaskDeque, ghost key: QueueKey)
      requires Linked() && key in queues && queues[key] == q && q.Contents() != []
      modifies q, this`lines
      ensures q.Valid() && q.Contents() == old(q.Contents())[1..] && q.Contents() == Line(View(), key)
      ensures Linked() && View() == old(WithLine(View(), key, Line(View(), key)[1..]))
    {
      hide Conserved, TaskDeque.Valid, TaskDeque.Contents;
      var _ := q.PopFront();
      lines := lines[key := q.Contents()];
    }

    /** The live head leaves its queue, and a dropped task the routing table. */
    method Take(q: TaskDeque, key: QueueKey, meta: SchedMeta, dropped: bool)
      requires Linked() && key in queues && queues[key] == q && q.Contents() != []
      modifies this`queues, this`lines, this`taskMeta, this`queued, q
      ensures Linked() && q.Valid() && q.Contents() == old(q.Contents())[1..] && q.Contents() == Line(View(), key)
      ensures var s, id := old(View()), old(q.Contents()[0]);
              var popped := WithLine(s, key, old(Line(View(), key)[1..]));
              View() == Cleanup(popped.(queued := s.queued - {id},
                                        taskMeta := if dropped then s.taskMeta - {id} else s.taskMeta), key, meta)
      ensures queues == old(queues) || (queues == old(queues) - {key} && q.Contents() == [])
    {
      hide Scheduler.Linked, TaskDeque.Valid, TaskDeque.Contents, Cleanup;
      QueueLine(key);
      var taskID := q.Front().value;
      Pop(q, key);
      queued := queued - {taskID};
      if dropped {
        taskMeta := taskMeta - {taskID};
      }
      MaybeCleanupQueue(q, key, meta);
    }

    lemma QueueLine(key: QueueKey)
      requires Linked() && key in queues
      ensures queues[key].Valid() && queues[key].Contents() == Line(View(), key)
    {}

    method NextFromQueue(q: TaskDeque, key: QueueKey, check: Check) returns (r: Option<SchedMeta>)
      requires Linked() && key in queues && queues[key] == q
      modifies this`queues, this`lines, this`taskMeta, this`queued, q
      ensures Linked() && (View(), r) == Scan(old(View()), key, check)
      ensures queues == old(queues) || queues == old(queues) - {key}
    {
      hide Conserved, Scheduler.Linked, TaskDeque.Valid, TaskDeque.Contents, Scan, Line, Cleanup;
      QueueLine(key);
      ghost var goal := Scan(View(), key, check);
      while q.Len() > 0
        invariant q.Valid() && Linked()
        invariant Scan(View(), key, check) == goal
        invariant q.Contents() == Line(View(), key)
        invariant key in queues ==> queues[key] == q
        invariant key !in queues ==> q.Contents() == []
        invariant queues == old(queues) || queues == old(queues) - {key}
        decreases |q.Contents()|
      {
        var taskID := q.Front().value;
        ScanStep(View(), key, check);
        if taskID !in taskMeta || taskID !in queued || queued[taskID] != key.Kind() {
          Pop(q, key);
          continue;
        }
        var meta := taskMeta[taskID];
        var decision := check(meta);
        if decision == Skip {
          return None;
        }
        Take(q, key, meta, decision == Drop);
        if decision.Assign? {
          return Some(meta);
        }
      }
      ScanStep(View(), key, check);
      return None;
    }

    /** One pop: a stale heap entry is discarded, a current lease expires. */
    method PopTop(top: Lease, ghost start: Sched, now: int, expired: seq<Lease>) returns (more: seq<Lease>)
      requires Popping(start, now, expired, View()) && Heaped(View()) && Heaped(start)
      requires Least(top, deadlines) && top.deadline <= now
      modifies this`running, this`deadlines
      ensures Popping(start, now, more, View()) && Heaped(View())
      ensures deadlines == old(deadlines) - multiset{top}
    {
      hide Popping, Heaped, Least, Less;
      LeastIn(top, deadlines);
      if top.taskID !in running || running[top.taskID] != top {
        PoppingStale(start, now, expired, View(), top);
        deadlines := deadlines - multiset{top};
        return expired;
      }
      PoppingTake(start, now, expired, View(), top);
      deadlines := deadlines - multiset{top};
      running := running - {top.taskID};
      return expired + [top];
    }

    method PopExpiredRunning(now: int) returns (expired: seq<Lease>)
      requires Valid()
      modifies this`running, this`deadlines
      ensures Valid() && Expired(old(View()), now, expired, View())
    {
      hide Scheduler.Linked, Conserved, Popping, Heaped, Least, Less, Expired;
      ghost var start := View();
      PoppingStart(start, home, now);
      expired := [];
      while deadlines != multiset{}
        invariant Popping(start, now, expired, View()) && Heaped(View()) && Heaped(start)
        decreases |deadlines|
      {
        LeastExists(deadlines);
        var top :| Least(top, deadlines);
        LeastIn(top, deadlines);
        if top.deadline > now {
          LaterOnly(deadlines, top, now);
          break;
        }
        expired := PopTop(top, start, now, expired);
      }
      PoppingDone(start, home, now, expired, View());
    }

    lemma LaterOnly(h: multiset<Lease>, top: Lease, now: int)
      requires Least(top, h) && top.deadline > now
      ensures forall l :: l in h ==> l.deadline > now
    {}

    method AssignActors(actors: seq<string>, nextSeq: map<string, nat>, check: Check) returns (r: Option<SchedMeta>)
      requires Linked()
      modifies this`queues, this`lines, this`taskMeta, this`queued, queues.Values
      ensures Linked() && (View(), r) == ScanActors(old(View()), actors, nextSeq, check)
      ensures queues.Values <= old(queues.Values)
    {
      hide Scheduler.Linked, Scan, Line, OnTurn;
      ghost var goal := ScanActors(View(), actors, nextSeq, check);
      for i := 0 to |actors|
        invariant Linked() && ScanActors(View(), actors[i..], nextSeq, check) == goal
        invariant queues.Values <= old(queues.Values)
      {
        assert actors[i..][1..] == actors[i + 1..];
        r := NextAt(ActorQueue(actors[i]), OnTurn(NextSeq(nextSeq, actors[i]), check));
        if r.Some? {
          return;
        }
      }
      return None;
    }

    /** nextFromQueueLocked on the queue of a key, if it has one. */
    method NextAt(key: QueueKey, check: Check) returns (r: Option<SchedMeta>)
      requires Linked()
      modifies this`queues, this`lines, this`taskMeta, this`queued, queues.Values
      ensures Linked() && (View(), r) == Scan(old(View()), key, check)
      ensures queues.Values <= old(queues.Values)
    {
      hide Scheduler.Linked, Scan, Line;
      Domains();
      if key in queues {
        r := NextFromQueue(queues[key], key, check);
      } else {
        NoLine(View(), key);
        ScanStep(View(), key, check);
        return None;
      }
    }

    lemma Domains()
      requires Linked()
      ensures lines.Keys == queues.Keys && GeneralQueue in queues
    {}

    lemma NoLine(s: Sched, key: QueueKey)
      requires key !in s.lines
      ensures Line(s, key) == []
    {}

    /** frontMetaLocked. */
    method PruneFront(key: QueueKey)
      requires Linked()
      modifies this`lines, queues.Values
      ensures Linked() && View() == Pruned(old(View()), key)
    {
      hide Scheduler.Linked, TaskDeque.Valid, TaskDeque.Contents, Line;
      Domains();
      if key !in queues {
        NoLine(View(), key);
        return;
      }
      var q := queues[key];
      QueueLine(key);
      ghost var goal := Pruned(View(), key);
      while q.Len() > 0
        invariant q.Valid() && Linked() && q.Contents() == Line(View(), key)
        invariant Pruned(View(), key) == goal
        decreases |q.Contents()|
      {
        var taskID := q.Front().value;
        if taskID in taskMeta && taskID in queued && queued[taskID] == key.Kind() {
          return;
        }
        Pop(q, key);
      }
    }

    method PruneModels(inspected: seq<ModelKey>)
      requires Linked()
      modifies this`lines, queues.Values
      ensures Linked() && View() == PrunedAll(old(View()), inspected)
    {
      hide Scheduler.Linked, Pruned;
      ghost var goal := PrunedAll(View(), inspected);
      for i := 0 to |inspected|
        invariant Linked() && PrunedAll(View(), inspected[i..]) == goal
      {
        assert inspected[i..][1..] == inspected[i + 1..];
        PruneFront(ModelQueue(inspected[i]));
      }
    }

    method AssignModels(ranked: seq<ModelKey>, check: Check) returns (r: Option<SchedMeta>)
      requires Linked()
      modifies this`queues, this`lines, this`taskMeta, this`queued, queues.Values
      ensures Linked() && (View(), r) == ScanModels(old(View()), ranked, check)
      ensures queues.Values <= old(queues.Values)
    {
      hide Scheduler.Linked, Scan;
      ghost var goal := ScanModels(View(), ranked, check);
      for i := 0 to |ranked|
        invariant Linked() && ScanModels(View(), ranked[i..], check) == goal
        invariant queues.Values <= old(queues.Values)
      {
        assert ranked[i..][1..] == ranked[i + 1..];
        r := NextAt(ModelQueue(ranked[i]), check);
        if r.Some? {
          return;
        }
      }
      return None;
    }

    method Assign(w: Snapshot, inspected: seq<ModelKey>, ranked: seq<ModelKey>, check: Check)
      returns (r: Option<SchedMeta>)
      requires Valid()
      modifies this`queues, this`lines, this`taskMeta, this`queued, queues.Values
      ensures Valid() && (View(), r) == Assigned(old(View()), w, inspected, ranked, check)
      ensures queues.Values <= old(queues.Values)
    {
      hide Scheduler.Linked, Conserved, Scan, ScanActors, ScanModels, PrunedAll;
      if w.worker == "" {
        return None;
      }
      AssignConserves(View(), home, w, inspected, ranked, check);
      r := NextAt(TargetQueue(w.worker), check);
      if r.Some? {
        return;
      }
      r := AssignActors(w.actors, w.nextSeq, check);
      if r.Some? {
        return;
      }
      PruneModels(inspected);
      r := AssignModels(ranked, check);
      if r.Some? {
        return;
      }
      r := NextAt(GeneralQueue, check);
    }
  }
}
