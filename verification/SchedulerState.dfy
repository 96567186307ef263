/** What the indexed scheduler computes, over plain queues
    (internal/control/scheduler.go:113-478). Each operation of the Scheduler class
    equals one function of this module. */
module SchedulerState {
  import opened Basics

  datatype Kind = General | TargetWorker | Actor | LLM

  datatype ModelKey = ModelKey(name: string, version: string)

  /** modelKeyFromParts: an empty version means v1. */
  function ModelKeyFromParts(name: string, version: string): ModelKey {
    ModelKey(name, if version == "" then "v1" else version)
  }

  /** The four queue families. */
  datatype QueueKey = GeneralQueue | TargetQueue(worker: string) | ActorQueue(actor: string) | ModelQueue(key: ModelKey)
  {
    function Kind(): Kind {
      match this
      case GeneralQueue => General
      case TargetQueue(_) => TargetWorker
      case ActorQueue(_) => Actor
      case ModelQueue(_) => LLM
    }
  }

  datatype SchedMeta = SchedMeta(
    taskID: string, targetWorker: string, actorID: string, commandSeq: nat,
    modelName: string, modelVersion: string, createdAt: int, leaseEpoch: nat)
  {
    /** queueForLocked under schedulerTaskKind. */
    function Route(): QueueKey {
      if actorID != "" then ActorQueue(actorID)
      else if targetWorker != "" then TargetQueue(targetWorker)
      else if modelName != "" then ModelQueue(ModelKeyFromParts(modelName, modelVersion))
      else GeneralQueue
    }

    /** The queue maybeCleanupQueueLocked may delete, given the kind it was popped as. */
    function Spare(kind: Kind): Option<QueueKey> {
      match kind
      case General => None
      case TargetWorker => if targetWorker == "" then None else Some(TargetQueue(targetWorker))
      case Actor => if actorID == "" then None else Some(ActorQueue(actorID))
      case LLM => Some(ModelQueue(ModelKeyFromParts(modelName, modelVersion)))
    }
  }

  datatype Decision = Skip | Assign | Drop

  type Check = SchedMeta -> Decision

  datatype Lease = Lease(taskID: string, deadline: int, epoch: nat)

  /** taskDeadlineHeap.Less. */
  predicate Less(a: Lease, b: Lease) {
    if a.deadline == b.deadline then
      if a.taskID == b.taskID then a.epoch < b.epoch else Before(a.taskID, b.taskID)
    else a.deadline < b.deadline
  }

  datatype Sched = Sched(
    lines: map<QueueKey, seq<string>>, taskMeta: map<string, SchedMeta>, queued: map<string, Kind>,
    running: map<string, Lease>, deadlines: multiset<Lease>)

  const EMPTY_SCHED: Sched := Sched(map[GeneralQueue := []], map[], map[], map[], multiset{})

  function Line(s: Sched, key: QueueKey): seq<string> {
    if key in s.lines then s.lines[key] else []
  }

  function WithLine(s: Sched, key: QueueKey, line: seq<string>): Sched {
    s.(lines := s.lines[key := line])
  }

  function Enqueued(s: Sched, meta: SchedMeta): Sched {
    if meta.taskID == "" then s
    else if meta.taskID in s.queued then s.(taskMeta := s.taskMeta[meta.taskID := meta])
    else
      var t := s.(taskMeta := s.taskMeta[meta.taskID := meta], queued := s.queued[meta.taskID := meta.Route().Kind()]);
      WithLine(t, meta.Route(), Line(t, meta.Route()) + [meta.taskID])
  }

  function Returned(s: Sched, meta: SchedMeta): Sched {
    if meta.taskID == "" then s
    else if meta.taskID in s.queued then s.(taskMeta := s.taskMeta[meta.taskID := meta])
    else
      var t := s.(taskMeta := s.taskMeta[meta.taskID := meta], queued := s.queued[meta.taskID := meta.Route().Kind()]);
      WithLine(t, meta.Route(), [meta.taskID] + Line(t, meta.Route()))
  }

  /** Forget and CompleteRunning. */
  function Forgotten(s: Sched, taskID: string): Sched {
    if taskID == "" then s
    else s.(taskMeta := s.taskMeta - {taskID}, queued := s.queued - {taskID}, running := s.running - {taskID})
  }

  function Tracked(s: Sched, taskID: string, deadline: int, epoch: nat): Sched {
    if taskID == "" || deadline <= 0 || epoch == 0 then s
    else
      var lease := Lease(taskID, deadline, epoch);
      var t := s.(running := s.running[taskID := lease], deadlines := s.deadlines + multiset{lease});
      if taskID in s.taskMeta then t.(taskMeta := s.taskMeta[taskID := s.taskMeta[taskID].(leaseEpoch := epoch)])
      else t
  }

  function Cleanup(s: Sched, key: QueueKey, meta: SchedMeta): Sched {
    if Line(s, key) == [] && meta.Spare(key.Kind()) == Some(key) then s.(lines := s.lines - {key}) else s
  }

  predicate Stale(s: Sched, key: QueueKey, taskID: string) {
    taskID !in s.taskMeta || taskID !in s.queued || s.queued[taskID] != key.Kind()
  }

  /** nextFromQueueLocked: skip stale entries, drop what the check drops, stop at the
      first live entry it skips, hand out the first it assigns. */
  function Scan(s: Sched, key: QueueKey, check: Check): (Sched, Option<SchedMeta>)
    decreases |Line(s, key)|
  {
    var line := Line(s, key);
    if line == [] then (s, None)
    else
      var id := line[0];
      var popped := WithLine(s, key, line[1..]);
      if Stale(s, key, id) then Scan(popped, key, check)
      else
        var meta := s.taskMeta[id];
        match check(meta)
        case Skip => (s, None)
        case Drop =>
          Scan(Cleanup(popped.(queued := s.queued - {id}, taskMeta := s.taskMeta - {id}), key, meta), key, check)
        case Assign => (Cleanup(popped.(queued := s.queued - {id}), key, meta), Some(meta))
  }

  /** One round of the scan. */
  lemma ScanStep(s: Sched, key: QueueKey, check: Check)
    ensures Line(s, key) == [] ==> Scan(s, key, check) == (s, None)
    ensures Line(s, key) != [] ==>
              var id := Line(s, key)[0];
              var popped := WithLine(s, key, Line(s, key)[1..]);
              if Stale(s, key, id) then Scan(s, key, check) == Scan(popped, key, check)
              else
                var meta := s.taskMeta[id];
                match check(meta)
                case Skip => Scan(s, key, check) == (s, None)
                case Drop =>
                  Scan(s, key, check)
                  == Scan(Cleanup(popped.(queued := s.queued - {id}, taskMeta := s.taskMeta - {id}), key, meta), key,
                          check)
                case Assign =>
                  Scan(s, key, check) == (Cleanup(popped.(queued := s.queued - {id}), key, meta), Some(meta))
  {}

  /** An actor's queue waits for the command the actor can accept next. */
  function OnTurn(nextSeq: nat, check: Check): Check {
    (meta: SchedMeta) =>
      if meta.commandSeq != 0 && nextSeq != 0 && meta.commandSeq != nextSeq then Skip else check(meta)
  }

  function NextSeq(nextSeq: map<string, nat>, actor: string): nat {
    if actor in nextSeq then nextSeq[actor] else 0
  }

  function ScanActors(s: Sched, actors: seq<string>, nextSeq: map<string, nat>, check: Check)
    : (Sched, Option<SchedMeta>)
    decreases |actors|
  {
    if actors == [] then (s, None)
    else
      var r := Scan(s, ActorQueue(actors[0]), OnTurn(NextSeq(nextSeq, actors[0]), check));
      if r.1.Some? then r else ScanActors(r.0, actors[1..], nextSeq, check)
  }

  /** frontMetaLocked: drop the stale entries at the front. */
  function Pruned(s: Sched, key: QueueKey): Sched
    decreases |Line(s, key)|
  {
    if Line(s, key) == [] || !Stale(s, key, Line(s, key)[0]) then s
    else Pruned(WithLine(s, key, Line(s, key)[1..]), key)
  }

  function PrunedAll(s: Sched, keys: seq<ModelKey>): Sched
    decreases |keys|
  {
    if keys == [] then s else PrunedAll(Pruned(s, ModelQueue(keys[0])), keys[1..])
  }

  function ScanModels(s: Sched, keys: seq<ModelKey>, check: Check): (Sched, Option<SchedMeta>)
    decreases |keys|
  {
    if keys == [] then (s, None)
    else
      var r := Scan(s, ModelQueue(keys[0]), check);
      if r.1.Some? then r else ScanModels(r.0, keys[1..], check)
  }

  /** A worker's view for one assignment. */
  datatype Snapshot = Snapshot(worker: string, actors: seq<string>, nextSeq: map<string, nat>)

  /** Assign: the worker's own queue, its actors' mailboxes, model queues, the general queue.
      `inspected` and `ranked` are the model queues the candidate ranking looks at and returns. */
  function Assigned(s: Sched, w: Snapshot, inspected: seq<ModelKey>, ranked: seq<ModelKey>, check: Check)
    : (Sched, Option<SchedMeta>)
  {
    if w.worker == "" then (s, None)
    else
      var own := Scan(s, TargetQueue(w.worker), check);
      if own.1.Some? then own
      else
        var actors := ScanActors(own.0, w.actors, w.nextSeq, check);
        if actors.1.Some? then actors
        else
          var models := ScanModels(PrunedAll(actors.0, inspected), ranked, check);
          if models.1.Some? then models else Scan(models.0, GeneralQueue, check)
  }

  // ---- Conservation -----------------------------------------------------------------------

  /** Every queued task has an entry in the line it was last pushed to, whatever stale
      entries lie around it; every tracked lease is in the heap. */
  predicate Conserved(s: Sched, home: map<string, QueueKey>) {
    && (forall id :: id in s.taskMeta ==> id != "" && s.taskMeta[id].taskID == id)
    && (forall id :: id in s.queued ==> Homed(s, home, id))
    && (forall id :: id in s.running ==>
          s.running[id].taskID == id && s.running[id].epoch > 0 && s.running[id] in s.deadlines)
  }

  predicate Homed(s: Sched, home: map<string, QueueKey>, id: string)
    requires id in s.queued
  {
    id in s.taskMeta && id in home && home[id].Kind() == s.queued[id] && id in Line(s, home[id])
  }

  /** What handing out work may do to a scheduler. */
  predicate Handout(s: Sched, t: Sched, r: Option<SchedMeta>, check: Check) {
    && t.running == s.running && t.deadlines == s.deadlines
    && t.queued.Keys <= s.queued.Keys && t.taskMeta.Keys <= s.taskMeta.Keys
    && (forall id :: id in t.queued ==> t.queued[id] == s.queued[id])
    && (forall id :: id in t.taskMeta ==> t.taskMeta[id] == s.taskMeta[id])
    && (forall id :: id in s.queued && id !in t.queued ==>
          id in s.taskMeta && (r == Some(s.taskMeta[id]) || check(s.taskMeta[id]) == Drop))
    && (forall id :: id in s.taskMeta && id !in t.taskMeta ==> id in s.queued && check(s.taskMeta[id]) == Drop)
    && (r.Some? ==>
          var id := r.value.taskID;
          id in s.queued && id !in t.queued && id in s.taskMeta && s.taskMeta[id] == r.value
          && id in t.taskMeta && check(r.value) == Assign)
  }

  lemma HandoutChain(s: Sched, t: Sched, u: Sched, r: Option<SchedMeta>, check: Check)
    requires Handout(s, t, None, check) && Handout(t, u, r, check)
    ensures Handout(s, u, r, check)
  {}

  lemma HandoutNothing(s: Sched, t: Sched, check: Check)
    requires t == s.(lines := t.lines)
    ensures Handout(s, t, None, check)
  {}

  lemma PopConserves(s: Sched, home: map<string, QueueKey>, key: QueueKey)
    requires Conserved(s, home) && Line(s, key) != [] && Stale(s, key, Line(s, key)[0])
    ensures Conserved(WithLine(s, key, Line(s, key)[1..]), home)
  {
    var line := Line(s, key);
    var t := WithLine(s, key, line[1..]);
    forall id | id in t.queued ensures Homed(t, home, id) {
      assert Homed(s, home, id);
      assert line == [line[0]] + line[1..];
    }
  }

  lemma CleanupConserves(s: Sched, home: map<string, QueueKey>, key: QueueKey, meta: SchedMeta)
    requires Conserved(s, home)
    ensures Conserved(Cleanup(s, key, meta), home)
    ensures Cleanup(s, key, meta) == s.(lines := Cleanup(s, key, meta).lines)
  {
    var t := Cleanup(s, key, meta);
    forall id | id in t.queued ensures Homed(t, home, id) {
      assert Homed(s, home, id);
    }
  }

  lemma UnmarkConserves(s: Sched, home: map<string, QueueKey>, id: string, dropped: bool)
    requires Conserved(s, home)
    ensures Conserved(s.(queued := s.queued - {id}, taskMeta := if dropped then s.taskMeta - {id} else s.taskMeta),
                      home)
  {
    var t := s.(queued := s.queued - {id}, taskMeta := if dropped then s.taskMeta - {id} else s.taskMeta);
    forall other | other in t.queued ensures Homed(t, home, other) {
      assert Homed(s, home, other);
    }
  }

  lemma DropFirst(s: Sched, home: map<string, QueueKey>, key: QueueKey)
    requires Conserved(s, home) && Line(s, key) != [] && Line(s, key)[0] !in s.queued
    ensures Conserved(WithLine(s, key, Line(s, key)[1..]), home)
  {
    PopConserves(s, home, key);
  }

  /** The live entry at the front leaves the queue together with its queued mark. */
  lemma TakeConserves(s: Sched, home: map<string, QueueKey>, key: QueueKey, dropped: bool)
    requires Conserved(s, home) && Line(s, key) != [] && !Stale(s, key, Line(s, key)[0])
    ensures var id := Line(s, key)[0];
            var popped := WithLine(s, key, Line(s, key)[1..]);
            var t := popped.(queued := s.queued - {id}, taskMeta := if dropped then s.taskMeta - {id} else s.taskMeta);
            Conserved(Cleanup(t, key, s.taskMeta[id]), home)
  {
    hide Conserved, Cleanup, Stale;
    LiveFront(s, key);
    var id := Line(s, key)[0];
    var unmarked := s.(queued := s.queued - {id}, taskMeta := if dropped then s.taskMeta - {id} else s.taskMeta);
    UnmarkConserves(s, home, id, dropped);
    DropFirst(unmarked, home, key);
    CleanupConserves(WithLine(unmarked, key, Line(s, key)[1..]), home, key, s.taskMeta[id]);
  }

  lemma {:induction false} ScanConserves(s: Sched, home: map<string, QueueKey>, key: QueueKey, check: Check)
    requires Conserved(s, home)
    ensures var r := Scan(s, key, check); Conserved(r.0, home) && Handout(s, r.0, r.1, check)
    decreases |Line(s, key)|
  {
    hide Conserved, Handout, Stale, Cleanup;
    var line := Line(s, key);
    if line == [] {
      HandoutNothing(s, s, check);
    } else {
      var popped := WithLine(s, key, line[1..]);
      if Stale(s, key, line[0]) {
        PopConserves(s, home, key);
        ScanConserves(popped, home, key, check);
        HandoutNothing(s, popped, check);
        HandoutChain(s, popped, Scan(popped, key, check).0, Scan(popped, key, check).1, check);
      } else {
        LiveFront(s, key);
        MetaNamed(s, home, line[0]);
        var meta := s.taskMeta[line[0]];
        TakeConserves(s, home, key, check(meta) == Drop);
        match check(meta)
        case Skip => HandoutNothing(s, s, check);
        case Assign =>
          var t := Cleanup(popped.(queued := s.queued - {line[0]}), key, meta);
          CleanupLines(popped.(queued := s.queued - {line[0]}), key, meta);
          TakeHandout(s, t, line[0], check);
        case Drop =>
          var t := Cleanup(popped.(queued := s.queued - {line[0]}, taskMeta := s.taskMeta - {line[0]}), key, meta);
          CleanupLines(popped.(queued := s.queued - {line[0]}, taskMeta := s.taskMeta - {line[0]}), key, meta);
          TakeHandout(s, t, line[0], check);
          ScanConserves(t, home, key, check);
          HandoutChain(s, t, Scan(t, key, check).0, Scan(t, key, check).1, check);
      }
    }
  }

  lemma MetaNamed(s: Sched, home: map<string, QueueKey>, id: string)
    requires Conserved(s, home) && id in s.taskMeta
    ensures s.taskMeta[id].taskID == id
  {}

  lemma LiveFront(s: Sched, key: QueueKey)
    requires Line(s, key) != [] && !Stale(s, key, Line(s, key)[0])
    ensures Line(s, key)[0] in s.taskMeta && Line(s, key)[0] in s.queued
  {}

  lemma TakeHandout(s: Sched, t: Sched, id: string, check: Check)
    requires id in s.taskMeta && id in s.queued && s.taskMeta[id].taskID == id
    requires check(s.taskMeta[id]) != Skip
    requires t == s.(lines := t.lines, queued := s.queued - {id},
                     taskMeta := if check(s.taskMeta[id]) == Drop then s.taskMeta - {id} else s.taskMeta)
    ensures Handout(s, t, if check(s.taskMeta[id]) == Drop then None else Some(s.taskMeta[id]), check)
  {}

  lemma CleanupLines(s: Sched, key: QueueKey, meta: SchedMeta)
    ensures Cleanup(s, key, meta) == s.(lines := Cleanup(s, key, meta).lines)
    ensures Line(Cleanup(s, key, meta), key) == Line(s, key)
  {}

  lemma HandoutOnTurn(s: Sched, t: Sched, r: Option<SchedMeta>, seq_: nat, check: Check)
    requires Handout(s, t, r, OnTurn(seq_, check))
    ensures Handout(s, t, r, check)
  {}

  lemma {:induction false} ActorsConserve(
    s: Sched, home: map<string, QueueKey>, actors: seq<string>, nextSeq: map<string, nat>, check: Check)
    requires Conserved(s, home)
    ensures var r := ScanActors(s, actors, nextSeq, check); Conserved(r.0, home) && Handout(s, r.0, r.1, check)
    decreases |actors|
  {
    hide Conserved, Handout, Scan, OnTurn;
    if actors == [] {
      HandoutNothing(s, s, check);
    } else {
      var turn := NextSeq(nextSeq, actors[0]);
      var r := Scan(s, ActorQueue(actors[0]), OnTurn(turn, check));
      ScanConserves(s, home, ActorQueue(actors[0]), OnTurn(turn, check));
      HandoutOnTurn(s, r.0, r.1, turn, check);
      if r.1.None? {
        ActorsConserve(r.0, home, actors[1..], nextSeq, check);
        var rest := ScanActors(r.0, actors[1..], nextSeq, check);
        HandoutChain(s, r.0, rest.0, rest.1, check);
      }
    }
  }

  lemma {:induction false} PruneConserves(s: Sched, home: map<string, QueueKey>, key: QueueKey)
    requires Conserved(s, home)
    ensures Conserved(Pruned(s, key), home) && Pruned(s, key) == s.(lines := Pruned(s, key).lines)
    decreases |Line(s, key)|
  {
    hide Conserved, Stale;
    if Line(s, key) != [] && Stale(s, key, Line(s, key)[0]) {
      PopConserves(s, home, key);
      PruneConserves(WithLine(s, key, Line(s, key)[1..]), home, key);
    }
  }

  lemma {:induction false} PruneAllConserves(s: Sched, home: map<string, QueueKey>, keys: seq<ModelKey>)
    requires Conserved(s, home)
    ensures Conserved(PrunedAll(s, keys), home) && PrunedAll(s, keys) == s.(lines := PrunedAll(s, keys).lines)
    decreases |keys|
  {
    hide Conserved, Pruned;
    if keys != [] {
      PruneConserves(s, home, ModelQueue(keys[0]));
      PruneAllConserves(Pruned(s, ModelQueue(keys[0])), home, keys[1..]);
    }
  }

  lemma {:induction false} ModelsConserve(s: Sched, home: map<string, QueueKey>, keys: seq<ModelKey>, check: Check)
    requires Conserved(s, home)
    ensures var r := ScanModels(s, keys, check); Conserved(r.0, home) && Handout(s, r.0, r.1, check)
    decreases |keys|
  {
    hide Conserved, Handout, Scan;
    if keys == [] {
      HandoutNothing(s, s, check);
    } else {
      var r := Scan(s, ModelQueue(keys[0]), check);
      ScanConserves(s, home, ModelQueue(keys[0]), check);
      if r.1.None? {
        ModelsConserve(r.0, home, keys[1..], check);
        var rest := ScanModels(r.0, keys[1..], check);
        HandoutChain(s, r.0, rest.0, rest.1, check);
      }
    }
  }

  /** Assign keeps every queued task reachable; a task leaves the queued set only by being
      returned or by a Drop decision, and a returned task was queued and no longer is. */
  lemma AssignConserves(
    s: Sched, home: map<string, QueueKey>, w: Snapshot, inspected: seq<ModelKey>, ranked: seq<ModelKey>, check: Check)
    requires Conserved(s, home)
    ensures var r := Assigned(s, w, inspected, ranked, check); Conserved(r.0, home) && Handout(s, r.0, r.1, check)
  {
    hide Conserved, Handout, Scan, ScanActors, ScanModels, PrunedAll;
    HandoutNothing(s, s, check);
    if w.worker != "" {
      var own := Scan(s, TargetQueue(w.worker), check);
      ScanConserves(s, home, TargetQueue(w.worker), check);
      if own.1.None? {
        ActorsConserve(own.0, home, w.actors, w.nextSeq, check);
        var actors := ScanActors(own.0, w.actors, w.nextSeq, check);
        HandoutChain(s, own.0, actors.0, actors.1, check);
        if actors.1.None? {
          LaterConserve(s, home, actors.0, inspected, ranked, check);
        }
      }
    }
  }

  lemma LaterConserve(
    s: Sched, home: map<string, QueueKey>, t: Sched, inspected: seq<ModelKey>, ranked: seq<ModelKey>, check: Check)
    requires Conserved(t, home) && Handout(s, t, None, check)
    ensures var models := ScanModels(PrunedAll(t, inspected), ranked, check);
            var r := if models.1.Some? then models else Scan(models.0, GeneralQueue, check);
            Conserved(r.0, home) && Handout(s, r.0, r.1, check)
  {
    hide Conserved, Handout, Scan, ScanModels, PrunedAll;
    var pruned := PrunedAll(t, inspected);
    PruneAllConserves(t, home, inspected);
    HandoutNothing(t, pruned, check);
    HandoutChain(s, t, pruned, None, check);
    ModelsConserve(pruned, home, ranked, check);
    var models := ScanModels(pruned, ranked, check);
    HandoutChain(s, pruned, models.0, models.1, check);
    if models.1.None? {
      ScanConserves(models.0, home, GeneralQueue, check);
      var last := Scan(models.0, GeneralQueue, check);
      HandoutChain(s, models.0, last.0, last.1, check);
    }
  }

  // ---- First come, first served ---------------------------------------------------------

  /** Stale entries and dropped tasks do not hold up a line. */
  predicate Passed(s: Sched, key: QueueKey, check: Check, id: string) {
    Stale(s, key, id) || check(s.taskMeta[id]) == Drop
  }

  function FirstStanding(s: Sched, key: QueueKey, check: Check, line: seq<string>): (i: nat)
    ensures i <= |line|
  {
    if line == [] || !Passed(s, key, check, line[0]) then 0 else 1 + FirstStanding(s, key, check, line[1..])
  }

  lemma {:induction false} FirstSame(s: Sched, t: Sched, key: QueueKey, check: Check, line: seq<string>)
    requires forall id :: Passed(s, key, check, id) == Passed(t, key, check, id)
    ensures FirstStanding(s, key, check, line) == FirstStanding(t, key, check, line)
  {
    hide Passed;
    if line != [] {
      FirstSame(s, t, key, check, line[1..]);
    }
  }

  lemma DropPasses(s: Sched, t: Sched, key: QueueKey, check: Check, id: string)
    requires !Stale(s, key, id) && check(s.taskMeta[id]) == Drop
    requires t.queued == s.queued - {id} && t.taskMeta == s.taskMeta - {id}
    ensures forall other :: Passed(s, key, check, other) == Passed(t, key, check, other)
  {}

  /** The first entry that is neither stale nor dropped decides: it is handed out or it
      blocks its line; everything before it leaves, nothing behind it moves. */
  predicate ServesFirst(s: Sched, key: QueueKey, check: Check, line: seq<string>, i: nat, t: Sched,
                        r: Option<SchedMeta>)
    requires i <= |line|
  {
    if i == |line| then r == None && Line(t, key) == []
    else
      && !Stale(s, key, line[i])
      && (if check(s.taskMeta[line[i]]) == Assign then r == Some(s.taskMeta[line[i]]) && Line(t, key) == line[i + 1..]
          else r == None && Line(t, key) == line[i..])
  }

  lemma {:induction false} ScanServesFirst(s: Sched, key: QueueKey, check: Check)
    ensures var line, r := Line(s, key), Scan(s, key, check);
            ServesFirst(s, key, check, line, FirstStanding(s, key, check, line), r.0, r.1)
    ensures forall other :: other != key ==> Line(Scan(s, key, check).0, other) == Line(s, other)
    decreases |Line(s, key)|
  {
    hide Cleanup;
    var line := Line(s, key);
    if line != [] {
      var id := line[0];
      var popped := WithLine(s, key, line[1..]);
      if Stale(s, key, id) {
        ScanServesFirst(popped, key, check);
        FirstSame(s, popped, key, check, line[1..]);
        ServedLater(s, popped, key, check, line);
      } else {
        LiveFront(s, key);
        var meta := s.taskMeta[id];
        if check(meta) == Drop {
          var d := popped.(queued := s.queued - {id}, taskMeta := s.taskMeta - {id});
          var t := Cleanup(d, key, meta);
          CleanupLines(d, key, meta);
          CleanupOthers(d, key, meta);
          DropPasses(s, t, key, check, id);
          ScanServesFirst(t, key, check);
          FirstSame(s, t, key, check, line[1..]);
          ServedLater(s, t, key, check, line);
        } else {
          CleanupLines(popped.(queued := s.queued - {id}), key, meta);
          CleanupOthers(popped.(queued := s.queued - {id}), key, meta);
        }
      }
    }
  }

  lemma CleanupOthers(s: Sched, key: QueueKey, meta: SchedMeta)
    ensures forall other :: other != key ==> Line(Cleanup(s, key, meta), other) == Line(s, other)
  {}

  lemma ServedLater(s: Sched, t: Sched, key: QueueKey, check: Check, line: seq<string>)
    requires line != [] && Line(t, key) == line[1..] && Passed(s, key, check, line[0])
    requires forall id :: Passed(s, key, check, id) == Passed(t, key, check, id)
    requires forall id :: id in t.taskMeta ==> id in s.taskMeta && t.taskMeta[id] == s.taskMeta[id]
    requires forall id :: id in t.queued ==> id in s.queued && t.queued[id] == s.queued[id]
    requires FirstStanding(s, key, check, line[1..]) == FirstStanding(t, key, check, line[1..])
    requires var r := Scan(t, key, check);
             ServesFirst(t, key, check, line[1..], FirstStanding(t, key, check, line[1..]), r.0, r.1)
    ensures var r := Scan(t, key, check);
            ServesFirst(s, key, check, line, FirstStanding(s, key, check, line), r.0, r.1)
  {
    hide Scan;
    var i := FirstStanding(t, key, check, line[1..]);
    assert FirstStanding(s, key, check, line) == 1 + i;
    if i < |line| - 1 {
      assert line[1..][i] == line[i + 1];
      assert line[1..][i + 1..] == line[i + 2..] && line[1..][i..] == line[i + 1..];
    }
  }

  // ---- Expiry -------------------------------------------------------------------------------

  /** PopExpiredRunning: exactly the current leases due by `now`, in deadline order; later
      leases stay tracked, and nothing due stays in the heap. */
  ghost predicate Expired(s: Sched, now: int, expired: seq<Lease>, t: Sched) {
    && t == s.(running := t.running, deadlines := t.deadlines)
    && t.running == (map id | id in s.running && s.running[id].deadline > now :: s.running[id])
    && (forall l :: t.deadlines[l] == if l.deadline <= now then 0 else s.deadlines[l])
    && (forall l :: l in expired <==> l.taskID in s.running && s.running[l.taskID] == l && l.deadline <= now)
    && (forall i, j :: 0 <= i < j < |expired| ==> Less(expired[i], expired[j]))
  }

  lemma LessTotal(a: Lease, b: Lease)
    ensures Less(a, b) || a == b || Less(b, a)
  {
    BeforeTotal(a.taskID, b.taskID);
  }

  lemma LessAsymmetric(a: Lease, b: Lease)
    requires Less(a, b)
    ensures !Less(b, a) && a != b
  {
    if a.deadline == b.deadline && a.taskID != b.taskID {
      BeforeAsymmetric(a.taskID, b.taskID);
    }
  }

  lemma LessTransitive(a: Lease, b: Lease, c: Lease)
    requires Less(a, b) && Less(b, c)
    ensures Less(a, c)
  {
    if a.deadline == b.deadline == c.deadline {
      if a.taskID == c.taskID && a.taskID != b.taskID {
        BeforeAsymmetric(a.taskID, b.taskID);
      } else if a.taskID != b.taskID && b.taskID != c.taskID {
        BeforeTransitive(a.taskID, b.taskID, c.taskID);
      }
    }
  }

  /** The top of a heap. */
  predicate Least(l: Lease, h: multiset<Lease>) {
    l in h && forall other :: other in h ==> !Less(other, l)
  }

  lemma {:induction false} LeastExists(h: multiset<Lease>)
    requires h != multiset{}
    ensures exists l :: Least(l, h)
  {
    var l :| l in h;
    var rest := h - multiset{l};
    if rest == multiset{} {
      forall other | other in h ensures other == l {
        assert other == l || other in rest;
      }
      if Less(l, l) { LessAsymmetric(l, l); }
      assert Least(l, h);
    } else {
      LeastExists(rest);
      var m :| Least(m, rest);
      var low := if Less(l, m) then l else m;
      forall other | other in h ensures !Less(other, low) {
        if Less(other, low) {
          assert other == l || other in rest;
          LessAsymmetric(other, low);
          if low == l {
            LessTransitive(other, l, m);
          }
        }
      }
      assert Least(low, h);
    }
  }

  /** Halfway through the pops: what was expired so far is due, in order, and gone from
      the tracked leases; nothing left in the heap sorts before it. */
  ghost predicate Popping(s: Sched, now: int, expired: seq<Lease>, t: Sched) {
    && t == s.(running := t.running, deadlines := t.deadlines)
    && (forall id :: id in t.running <==> id in s.running && s.running[id] !in expired)
    && (forall id :: id in t.running ==> t.running[id] == s.running[id])
    && (forall l :: l in expired ==> l.taskID in s.running && s.running[l.taskID] == l && l.deadline <= now)
    && (forall l: Lease :: l.deadline > now ==> t.deadlines[l] == s.deadlines[l])
    && Ordered(expired, t.deadlines)
  }

  predicate Ordered(expired: seq<Lease>, heap: multiset<Lease>) {
    && (forall l, x :: l in expired && x in heap ==> !Less(x, l))
    && (forall i, j :: 0 <= i < j < |expired| ==> Less(expired[i], expired[j]))
  }

  lemma OrderedTake(expired: seq<Lease>, heap: multiset<Lease>, top: Lease)
    requires Ordered(expired, heap) && Least(top, heap) && top !in expired
    ensures Ordered(expired + [top], heap - multiset{top})
  {
    hide Less;
    forall l | l in expired ensures Less(l, top) {
      LessTotal(l, top);
    }
    forall l, x | l in expired + [top] && x in heap - multiset{top} ensures !Less(x, l) {
      assert x in heap;
      assert l in expired || l == top;
    }
  }

  predicate Heaped(s: Sched) {
    forall id :: id in s.running ==> s.running[id].taskID == id && s.running[id] in s.deadlines
  }

  lemma PoppingStart(s: Sched, home: map<string, QueueKey>, now: int)
    requires Conserved(s, home)
    ensures Popping(s, now, [], s) && Heaped(s)
  {}

  lemma PoppingStale(s: Sched, now: int, expired: seq<Lease>, t: Sched, top: Lease)
    requires Popping(s, now, expired, t) && Heaped(t) && top in t.deadlines && top.deadline <= now
    requires top.taskID !in t.running || t.running[top.taskID] != top
    ensures var u := t.(deadlines := t.deadlines - multiset{top}); Popping(s, now, expired, u) && Heaped(u)
  {}

  lemma PoppingTake(s: Sched, now: int, expired: seq<Lease>, t: Sched, top: Lease)
    requires Popping(s, now, expired, t) && Heaped(t) && Heaped(s) && Least(top, t.deadlines) && top.deadline <= now
    requires top.taskID in t.running && t.running[top.taskID] == top
    ensures var u := t.(deadlines := t.deadlines - multiset{top}, running := t.running - {top.taskID});
            Popping(s, now, expired + [top], u) && Heaped(u)
  {
    hide Less, Ordered, Least;
    assert top !in expired;
    OrderedTake(expired, t.deadlines, top);
    LeastIn(top, t.deadlines);
  }

  lemma LeastIn(top: Lease, h: multiset<Lease>)
    requires Least(top, h)
    ensures top in h
  {}

  lemma PoppingDone(s: Sched, home: map<string, QueueKey>, now: int, expired: seq<Lease>, t: Sched)
    requires Popping(s, now, expired, t) && Heaped(t) && Conserved(s, home)
    requires forall l :: l in t.deadlines ==> l.deadline > now
    ensures Expired(s, now, expired, t) && Conserved(t, home)
  {
    hide Less;
    forall id | id in s.running ensures id in t.running <==> s.running[id].deadline > now {
      if id !in t.running {
        assert s.running[id] in expired;
      }
    }
    ExpiryConserves(s, home, now, expired, t);
  }

  // ---- Runs -----------------------------------------------------------------------------------

  datatype Op =
    | Enqueue(meta: SchedMeta)
    | ReturnFront(meta: SchedMeta)
    | Forget(taskID: string)
    | TrackRunning(taskID: string, deadline: int, epoch: nat)
    | PopExpired(now: int)
    | AssignTo(w: Snapshot, inspected: seq<ModelKey>, ranked: seq<ModelKey>, check: Check)

  ghost predicate StepsTo(s: Sched, op: Op, r: Option<SchedMeta>, t: Sched) {
    match op
    case Enqueue(meta) => t == Enqueued(s, meta) && r == None
    case ReturnFront(meta) => t == Returned(s, meta) && r == None
    case Forget(taskID) => t == Forgotten(s, taskID) && r == None
    case TrackRunning(taskID, deadline, epoch) => t == Tracked(s, taskID, deadline, epoch) && r == None
    case PopExpired(now) => (exists expired :: Expired(s, now, expired, t)) && r == None
    case AssignTo(w, inspected, ranked, check) => (t, r) == Assigned(s, w, inspected, ranked, check)
  }

  /** Where a task was last pushed. */
  function HomeAfter(home: map<string, QueueKey>, s: Sched, op: Op): map<string, QueueKey> {
    if (op.Enqueue? || op.ReturnFront?) && op.meta.taskID != "" && op.meta.taskID !in s.queued then
      home[op.meta.taskID := op.meta.Route()]
    else home
  }

  /** Any line may grow. */
  lemma GrowConserves(s: Sched, home: map<string, QueueKey>, key: QueueKey, line: seq<string>)
    requires Conserved(s, home) && forall id :: id in Line(s, key) ==> id in line
    ensures Conserved(WithLine(s, key, line), home)
  {
    var t := WithLine(s, key, line);
    forall id | id in t.queued ensures Homed(t, home, id) {
      assert Homed(s, home, id);
    }
  }

  lemma MarkConserves(s: Sched, home: map<string, QueueKey>, id: string, key: QueueKey)
    requires Conserved(s, home) && id !in s.queued && id in s.taskMeta && id in Line(s, key)
    ensures Conserved(s.(queued := s.queued[id := key.Kind()]), home[id := key])
  {
    var t := s.(queued := s.queued[id := key.Kind()]);
    forall other | other in t.queued ensures Homed(t, home[id := key], other) {
      assert other != id ==> Homed(s, home, other);
    }
  }

  lemma PushConserves(s: Sched, home: map<string, QueueKey>, meta: SchedMeta, front: bool)
    requires Conserved(s, home) && meta.taskID != "" && meta.taskID !in s.queued
    ensures Conserved(if front then Returned(s, meta) else Enqueued(s, meta), home[meta.taskID := meta.Route()])
  {
    hide Conserved;
    var id, key := meta.taskID, meta.Route();
    var known := s.(taskMeta := s.taskMeta[id := meta]);
    RefreshConserves(s, home, meta);
    var line := if front then [id] + Line(s, key) else Line(s, key) + [id];
    GrowConserves(known, home, key, line);
    MarkConserves(WithLine(known, key, line), home, id, key);
  }

  lemma RefreshConserves(s: Sched, home: map<string, QueueKey>, meta: SchedMeta)
    requires Conserved(s, home) && meta.taskID != ""
    ensures Conserved(s.(taskMeta := s.taskMeta[meta.taskID := meta]), home)
  {
    var t := s.(taskMeta := s.taskMeta[meta.taskID := meta]);
    forall id | id in t.queued ensures Homed(t, home, id) {
      assert Homed(s, home, id);
    }
  }

  lemma ForgetConserves(s: Sched, home: map<string, QueueKey>, taskID: string)
    requires Conserved(s, home)
    ensures Conserved(Forgotten(s, taskID), home)
  {
    var t := Forgotten(s, taskID);
    forall id | id in t.queued ensures Homed(t, home, id) {
      assert Homed(s, home, id);
    }
  }

  lemma ArmConserves(s: Sched, home: map<string, QueueKey>, lease: Lease)
    requires Conserved(s, home) && lease.epoch > 0
    ensures Conserved(s.(running := s.running[lease.taskID := lease], deadlines := s.deadlines + multiset{lease}), home)
  {
    hide Line;
    var t := s.(running := s.running[lease.taskID := lease], deadlines := s.deadlines + multiset{lease});
    forall id | id in t.queued ensures Homed(t, home, id) {
      assert Homed(s, home, id);
      SameLine(s, t, home[id]);
    }
  }

  lemma SameLine(s: Sched, t: Sched, key: QueueKey)
    requires s.lines == t.lines
    ensures Line(s, key) == Line(t, key)
  {}

  lemma TrackConserves(s: Sched, home: map<string, QueueKey>, taskID: string, deadline: int, epoch: nat)
    requires Conserved(s, home)
    ensures Conserved(Tracked(s, taskID, deadline, epoch), home)
  {
    hide Conserved;
    if taskID != "" && deadline > 0 && epoch > 0 {
      var lease := Lease(taskID, deadline, epoch);
      var armed := s.(running := s.running[taskID := lease], deadlines := s.deadlines + multiset{lease});
      ArmConserves(s, home, lease);
      if taskID in s.taskMeta {
        MetaNamed(s, home, taskID);
        RefreshConserves(armed, home, s.taskMeta[taskID].(leaseEpoch := epoch));
      }
    }
  }

  lemma ExpiryConserves(s: Sched, home: map<string, QueueKey>, now: int, expired: seq<Lease>, t: Sched)
    requires Conserved(s, home) && Expired(s, now, expired, t)
    ensures Conserved(t, home)
  {
    forall id | id in t.queued ensures Homed(t, home, id) {
      assert Homed(s, home, id);
    }
  }

  /** Every operation, in any order and with any arguments, keeps every queued task in a
      line of its kind and every tracked lease in the heap. */
  lemma StepConserves(s: Sched, home: map<string, QueueKey>, op: Op, r: Option<SchedMeta>, t: Sched)
    requires Conserved(s, home) && StepsTo(s, op, r, t)
    ensures Conserved(t, HomeAfter(home, s, op))
  {
    hide Conserved, Assigned, Expired, Forgotten, Tracked;
    match op
    case Enqueue(meta) => PushOrRefresh(s, home, meta, false);
    case ReturnFront(meta) => PushOrRefresh(s, home, meta, true);
    case Forget(taskID) => ForgetConserves(s, home, taskID);
    case TrackRunning(taskID, deadline, epoch) => TrackConserves(s, home, taskID, deadline, epoch);
    case PopExpired(now) =>
      var expired :| Expired(s, now, expired, t);
      ExpiryConserves(s, home, now, expired, t);
    case AssignTo(w, inspected, ranked, check) => AssignConserves(s, home, w, inspected, ranked, check);
  }

  lemma PushOrRefresh(s: Sched, home: map<string, QueueKey>, meta: SchedMeta, front: bool)
    requires Conserved(s, home)
    ensures var t := if front then Returned(s, meta) else Enqueued(s, meta);
            var op := if front then ReturnFront(meta) else Enqueue(meta);
            Conserved(t, HomeAfter(home, s, op))
  {
    hide Conserved;
    if meta.taskID != "" {
      if meta.taskID in s.queued {
        RefreshConserves(s, home, meta);
      } else {
        PushConserves(s, home, meta, front);
      }
    }
  }

  /** A task enters the queued set only through Enqueue or ReturnFront, and leaves it only by
      being handed out, by a Drop decision, or through Forget (or CompleteRunning). */
  lemma QueuedMoves(s: Sched, home: map<string, QueueKey>, op: Op, r: Option<SchedMeta>, t: Sched, id: string)
    requires Conserved(s, home) && StepsTo(s, op, r, t)
    ensures id !in s.queued && id in t.queued ==> (op.Enqueue? || op.ReturnFront?) && op.meta.taskID == id
    ensures id in s.queued && id !in t.queued ==>
              || (op.Forget? && op.taskID == id)
              || (op.AssignTo? && id in s.taskMeta && (r == Some(s.taskMeta[id]) || op.check(s.taskMeta[id]) == Drop))
    ensures r.Some? ==> op.AssignTo? && r.value.taskID in s.queued && r.value.taskID !in t.queued
                        && op.check(r.value) == Assign
  {
    hide Assigned, Conserved;
    if op.AssignTo? {
      AssignConserves(s, home, op.w, op.inspected, op.ranked, op.check);
    }
  }

  ghost predicate Trace(states: seq<Sched>, ops: seq<Op>, results: seq<Option<SchedMeta>>) {
    && |states| == |ops| + 1 && |results| == |ops|
    && states[0] == EMPTY_SCHED
    && forall i :: 0 <= i < |ops| ==> StepsTo(states[i], ops[i], results[i], states[i + 1])
  }

  function HomeAt(states: seq<Sched>, ops: seq<Op>, i: nat): map<string, QueueKey>
    requires i <= |ops| && |states| == |ops| + 1
  {
    if i == 0 then map[] else HomeAfter(HomeAt(states, ops, i - 1), states[i - 1], ops[i - 1])
  }

  lemma {:induction false} TraceConserves(states: seq<Sched>, ops: seq<Op>, results: seq<Option<SchedMeta>>, i: nat)
    requires Trace(states, ops, results) && i <= |ops|
    ensures Conserved(states[i], HomeAt(states, ops, i))
    decreases i
  {
    hide StepsTo, HomeAfter;
    if i > 0 {
      TraceConserves(states, ops, results, i - 1);
      StepConserves(states[i - 1], HomeAt(states, ops, i - 1), ops[i - 1], results[i - 1], states[i]);
    }
  }

  predicate Enters(op: Op, id: string) {
    (op.Enqueue? || op.ReturnFront?) && op.meta.taskID == id
  }

  lemma {:induction false} StaysOut(
    states: seq<Sched>, ops: seq<Op>, results: seq<Option<SchedMeta>>, i: nat, j: nat, id: string)
    requires Trace(states, ops, results) && i <= j <= |ops|
    requires id !in states[i].queued && forall k :: i <= k < j ==> !Enters(ops[k], id)
    ensures id !in states[j].queued
    decreases j
  {
    hide StepsTo, Conserved;
    if i < j {
      StaysOut(states, ops, results, i, j - 1, id);
      TraceConserves(states, ops, results, j - 1);
      QueuedMoves(states[j - 1], HomeAt(states, ops, j - 1), ops[j - 1], results[j - 1], states[j], id);
      assert !Enters(ops[j - 1], id);
    }
  }

  /** In every run, between two hand-outs of a task it was enqueued or returned again. */
  lemma HandedOutOnce(states: seq<Sched>, ops: seq<Op>, results: seq<Option<SchedMeta>>, i: nat, j: nat)
    requires Trace(states, ops, results) && i < j < |ops|
    requires results[i].Some? && results[j].Some? && results[i].value.taskID == results[j].value.taskID
    ensures exists k :: i < k < j && Enters(ops[k], results[j].value.taskID)
  {
    hide StepsTo, Conserved;
    var id := results[j].value.taskID;
    TraceConserves(states, ops, results, i);
    TraceConserves(states, ops, results, j);
    QueuedMoves(states[i], HomeAt(states, ops, i), ops[i], results[i], states[i + 1], id);
    QueuedMoves(states[j], HomeAt(states, ops, j), ops[j], results[j], states[j + 1], id);
    if forall k :: i < k < j ==> !Enters(ops[k], id) {
      StaysOut(states, ops, results, i + 1, j, id);
    }
  }

  // ---- Routing --------------------------------------------------------------------------------

  /** With each task's routing key fixed, every entry - stale ones too - is in its task's own
      line. */
  ghost predicate Routed(s: Sched, route: string -> QueueKey) {
    && (forall key, id :: key in s.lines && id in s.lines[key] ==> route(id) == key)
    && (forall id :: id in s.taskMeta ==> s.taskMeta[id].Route() == route(id))
  }

  /** So a queued task is found in the queue its metadata names. */
  lemma OwnQueue(s: Sched, home: map<string, QueueKey>, route: string -> QueueKey, id: string)
    requires Conserved(s, home) && Routed(s, route) && id in s.queued
    ensures id in Line(s, route(id)) && id in s.taskMeta && s.taskMeta[id].Route() == route(id)
    ensures s.queued[id] == route(id).Kind()
  {
    assert Homed(s, home, id);
  }

  lemma {:induction false} ScanShrinks(s: Sched, key: QueueKey, check: Check)
    ensures var t := Scan(s, key, check).0;
            && (forall k :: k in t.lines ==> k in s.lines && forall id :: id in t.lines[k] ==> id in s.lines[k])
            && (forall id :: id in t.taskMeta ==> id in s.taskMeta && t.taskMeta[id] == s.taskMeta[id])
    ensures var r := Scan(s, key, check).1;
            r.Some? ==>
              check(r.value) == Assign
              && exists id :: id in Line(s, key) && id in s.taskMeta && s.taskMeta[id] == r.value
    decreases |Line(s, key)|
  {
    var line := Line(s, key);
    if line != [] {
      var id := line[0];
      var popped := WithLine(s, key, line[1..]);
      assert forall x :: x in line[1..] ==> x in line;
      if Stale(s, key, id) {
        ScanShrinks(popped, key, check);
      } else if check(s.taskMeta[id]) == Drop {
        var d := popped.(queued := s.queued - {id}, taskMeta := s.taskMeta - {id});
        CleanupLines(d, key, s.taskMeta[id]);
        ScanShrinks(Cleanup(d, key, s.taskMeta[id]), key, check);
      }
    }
  }

  lemma ScanRoutes(s: Sched, route: string -> QueueKey, key: QueueKey, check: Check)
    requires Routed(s, route)
    ensures var r := Scan(s, key, check);
            Routed(r.0, route) && (r.1.Some? ==> r.1.value.Route() == key && check(r.1.value) == Assign)
  {
    hide Scan;
    ScanShrinks(s, key, check);
  }

  /** What a worker may be handed: the next command of an actor it owns, its own targeted
      tasks, a model it is a candidate for, or general work. */
  predicate Addressed(meta: SchedMeta, w: Snapshot, ranked: seq<ModelKey>) {
    if meta.actorID != "" then
      meta.actorID in w.actors
      && (meta.commandSeq == 0 || meta.actorID !in w.nextSeq || w.nextSeq[meta.actorID] in {0, meta.commandSeq})
    else if meta.targetWorker != "" then meta.targetWorker == w.worker
    else if meta.modelName != "" then
      ModelKey(meta.modelName, if meta.modelVersion == "" then "v1" else meta.modelVersion) in ranked
    else true
  }

  lemma {:induction false} ActorsRoute(
    s: Sched, route: string -> QueueKey, actors: seq<string>, nextSeq: map<string, nat>, check: Check)
    requires Routed(s, route)
    ensures var r := ScanActors(s, actors, nextSeq, check);
            Routed(r.0, route)
            && (r.1.Some? ==>
                  && r.1.value.Route().ActorQueue? && r.1.value.Route().actor in actors
                  && check(r.1.value) == Assign
                  && var next := NextSeq(nextSeq, r.1.value.Route().actor);
                     r.1.value.commandSeq == 0 || next == 0 || r.1.value.commandSeq == next)
    decreases |actors|
  {
    hide Routed, Scan;
    if actors != [] {
      ScanRoutes(s, route, ActorQueue(actors[0]), OnTurn(NextSeq(nextSeq, actors[0]), check));
      var r := Scan(s, ActorQueue(actors[0]), OnTurn(NextSeq(nextSeq, actors[0]), check));
      if r.1.None? {
        ActorsRoute(r.0, route, actors[1..], nextSeq, check);
      }
    }
  }

  lemma {:induction false} PruneRoutes(s: Sched, route: string -> QueueKey, key: QueueKey)
    requires Routed(s, route)
    ensures Routed(Pruned(s, key), route)
    decreases |Line(s, key)|
  {
    hide Stale;
    var line := Line(s, key);
    if line != [] && Stale(s, key, line[0]) {
      assert forall x :: x in line[1..] ==> x in line;
      PruneRoutes(WithLine(s, key, line[1..]), route, key);
    }
  }

  lemma {:induction false} PruneAllRoutes(s: Sched, route: string -> QueueKey, keys: seq<ModelKey>)
    requires Routed(s, route)
    ensures Routed(PrunedAll(s, keys), route)
    decreases |keys|
  {
    hide Routed, Pruned;
    if keys != [] {
      PruneRoutes(s, route, ModelQueue(keys[0]));
      PruneAllRoutes(Pruned(s, ModelQueue(keys[0])), route, keys[1..]);
    }
  }

  lemma {:induction false} ModelsRoute(s: Sched, route: string -> QueueKey, keys: seq<ModelKey>, check: Check)
    requires Routed(s, route)
    ensures var r := ScanModels(s, keys, check);
            Routed(r.0, route)
            && (r.1.Some?
                ==> r.1.value.Route().ModelQueue? && r.1.value.Route().key in keys && check(r.1.value) == Assign)
    decreases |keys|
  {
    hide Routed, Scan;
    if keys != [] {
      ScanRoutes(s, route, ModelQueue(keys[0]), check);
      var r := Scan(s, ModelQueue(keys[0]), check);
      if r.1.None? {
        ModelsRoute(r.0, route, keys[1..], check);
      }
    }
  }

  lemma AssignRoutes(
    s: Sched, route: string -> QueueKey, w: Snapshot, inspected: seq<ModelKey>, ranked: seq<ModelKey>, check: Check)
    requires Routed(s, route)
    ensures var r := Assigned(s, w, inspected, ranked, check);
            Routed(r.0, route) && (r.1.Some? ==> Addressed(r.1.value, w, ranked))
  {
    hide Routed, Scan, ScanActors, ScanModels, PrunedAll;
    if w.worker != "" {
      ScanRoutes(s, route, TargetQueue(w.worker), check);
      var own := Scan(s, TargetQueue(w.worker), check);
      ActorsRoute(own.0, route, w.actors, w.nextSeq, check);
      var actors := ScanActors(own.0, w.actors, w.nextSeq, check);
      PruneAllRoutes(actors.0, route, inspected);
      ModelsRoute(PrunedAll(actors.0, inspected), route, ranked, check);
      ScanRoutes(ScanModels(PrunedAll(actors.0, inspected), ranked, check).0, route, GeneralQueue, check);
    }
  }

  /** Every operation keeps the routing, as long as a task is always pushed with its own
      key, and a worker is only handed what is addressed to it. */
  lemma StepRoutes(s: Sched, route: string -> QueueKey, op: Op, r: Option<SchedMeta>, t: Sched)
    requires Routed(s, route) && StepsTo(s, op, r, t)
    requires op.Enqueue? || op.ReturnFront? ==> op.meta.Route() == route(op.meta.taskID)
    ensures Routed(t, route)
    ensures r.Some? ==> op.AssignTo? && Addressed(r.value, op.w, op.ranked)
  {
    hide Assigned, Expired, Routed, Addressed, Enqueued, Returned, Forgotten, Tracked;
    match op
    case AssignTo(w, inspected, ranked, check) => AssignRoutes(s, route, w, inspected, ranked, check);
    case PopExpired(now) =>
      var expired :| Expired(s, now, expired, t);
      ExpiryShape(s, now, expired, t);
      SameRoutes(s, t, route);
    case Enqueue(meta) => PushRoutes(s, route, meta);
    case ReturnFront(meta) => PushRoutes(s, route, meta);
    case Forget(taskID) => ForgetRoutes(s, route, taskID);
    case TrackRunning(taskID, deadline, epoch) => TrackRoutes(s, route, taskID, deadline, epoch);
  }

  lemma SameRoutes(s: Sched, t: Sched, route: string -> QueueKey)
    requires Routed(s, route) && t.lines == s.lines && t.taskMeta == s.taskMeta
    ensures Routed(t, route)
  {}

  lemma PushRoutes(s: Sched, route: string -> QueueKey, meta: SchedMeta)
    requires Routed(s, route) && meta.Route() == route(meta.taskID)
    ensures Routed(Enqueued(s, meta), route) && Routed(Returned(s, meta), route)
  {}

  lemma ForgetRoutes(s: Sched, route: string -> QueueKey, taskID: string)
    requires Routed(s, route)
    ensures Routed(Forgotten(s, taskID), route)
  {}

  lemma TrackRoutes(s: Sched, route: string -> QueueKey, taskID: string, deadline: int, epoch: nat)
    requires Routed(s, route)
    ensures Routed(Tracked(s, taskID, deadline, epoch), route)
  {}

  lemma ExpiryShape(s: Sched, now: int, expired: seq<Lease>, t: Sched)
    requires Expired(s, now, expired, t)
    ensures t.lines == s.lines && t.taskMeta == s.taskMeta && t.queued == s.queued
  {}

  /** In every run with fixed routing keys each queued task waits in its own queue. */
  lemma {:induction false} TraceRoutes(
    states: seq<Sched>, ops: seq<Op>, results: seq<Option<SchedMeta>>, route: string -> QueueKey, i: nat)
    requires Trace(states, ops, results) && i <= |ops|
    requires forall k :: 0 <= k < |ops| && (ops[k].Enqueue? || ops[k].ReturnFront?) ==>
               ops[k].meta.Route() == route(ops[k].meta.taskID)
    ensures Routed(states[i], route)
    ensures forall id :: id in states[i].queued ==> id in Line(states[i], route(id))
    ensures i < |ops| && results[i].Some? ==> ops[i].AssignTo? && Addressed(results[i].value, ops[i].w, ops[i].ranked)
    decreases i
  {
    hide StepsTo, Conserved, Addressed;
    if i == 0 {
      NothingRouted(route);
    } else {
      TraceRoutes(states, ops, results, route, i - 1);
      StepRoutes(states[i - 1], route, ops[i - 1], results[i - 1], states[i]);
    }
    TraceConserves(states, ops, results, i);
    forall id | id in states[i].queued ensures id in Line(states[i], route(id)) {
      OwnQueue(states[i], HomeAt(states, ops, i), route, id);
    }
    if i < |ops| {
      StepRoutes(states[i], route, ops[i], results[i], states[i + 1]);
    }
  }

  lemma NothingRouted(route: string -> QueueKey)
    ensures Routed(EMPTY_SCHED, route)
  {}
}
