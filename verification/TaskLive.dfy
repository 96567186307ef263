/** Metadata checkpoints of the live row, taken anywhere in an undisturbed run
    (internal/control/checkpoint.go:83-117,276-322). */
module TaskLive {
  import opened Basics
  import opened TaskLog
  import opened TaskKeys
  import opened TaskCheckpoint
  import opened TaskProtocol
  import opened TaskRuns

  /** A checkpointed row whose lease was never logged: open, and ahead of replay. */
  predicate Waiting(g: Replay, seed: Replay) {
    && (g.status.Queued? || g.status.Running?) && g.leaseEpoch == seed.leaseEpoch
    && g.spec == seed.spec && g.ok == seed.ok
    && g.task == seed.task.(status := g.status, worker := g.task.worker)
    && (g.status.Queued? ==> g.task.worker == "")
  }

  /** Replay from the row stays ahead until a start reaches its lease, then follows. */
  predicate Tracks(g: Replay, f: Replay, seed: Replay) {
    && g.fence <= f.fence
    && (if f.leaseEpoch < seed.leaseEpoch then Waiting(g, seed) && !f.status.Terminal()
        else g == f.(fence := g.fence))
  }

  predicate SeedShape(seed: Replay, f: Replay) {
    && seed.ok && f.ok && seed.spec == f.spec && !seed.status.Unspecified?
    && seed.task.status == seed.status && seed.task.leaseEpoch == seed.leaseEpoch
    && seed.task.identity == f.task.identity && seed.task.taskID == f.task.taskID
    && seed.task.result == EMPTY && seed.task.error == "" && seed.task.commandSeq == f.task.commandSeq
  }

  lemma TrackStep(g: Replay, f: Replay, seed: Replay, high: nat, rec: Record)
    requires Under(f, high) && InProtocol(high, rec) && Tracks(g, f, seed) && SeedShape(seed, f)
    requires rec.IsTerminal() ==> Apply(f, rec).status.Terminal() && rec.epoch >= seed.leaseEpoch
    ensures Tracks(Apply(g, rec), Apply(f, rec), seed)
    ensures SeedShape(seed, Apply(f, rec))
  {
    if f.leaseEpoch >= seed.leaseEpoch {
      LaggingStep(f, g.fence, high, rec);
    }
  }

  /** A terminal record of an orderly log settles the fold it meets. */
  lemma TerminalSettles(s: Live, j: nat)
    requires Orderly(s) && j < |s.log| && s.log[j].IsTerminal()
    ensures j == |s.log| - 1 && Fold(INIT, s.log).status.Terminal() && s.task.status.Terminal()
    ensures Apply(Fold(INIT, s.log[..j]), s.log[j]) == Fold(INIT, s.log)
  {
    hide Fold, Apply, Shaped, Headed, Epoched;
    assert s.log[..j + 1] == s.log;
    FoldNext(INIT, s.log, j);
  }

  /** Every later act names the lease held now, or a later one. */
  predicate Later(log: seq<Record>, cut: nat, e: nat) {
    forall k :: cut <= k < |log| && log[k].Names() ==> log[k].epoch >= e
  }

  /** The facts one more record needs. */
  lemma TracksNext(s: Live, cut: nat, j: nat, g: Replay, seed: Replay)
    requires Orderly(s) && 1 <= cut <= |s.log| && 1 <= j < |s.log| && Later(s.log, cut, seed.leaseEpoch)
    requires !Fold(INIT, s.log[..cut]).status.Terminal()
    requires Tracks(g, Fold(INIT, s.log[..j]), seed) && SeedShape(seed, Fold(INIT, s.log[..j]))
    ensures var f := Apply(Fold(INIT, s.log[..j]), s.log[j]);
            Tracks(Apply(g, s.log[j]), f, seed) && SeedShape(seed, f)
  {
    hide Apply, Shaped, InProtocol, EpochOf, ReplayInvariant, High, Orderly, SeedShape, Tracks, Fold, Under;
    OrderlyShaped(s);
    ShapedPrefix(s.log, j);
    UnderAt(s.log, j);
    if s.log[j].IsTerminal() {
      TerminalSettles(s, j);
      OpenUntil(s, cut);
    }
    TrackStep(g, Fold(INIT, s.log[..j]), seed, High(s.log[..j]), s.log[j]);
  }

  lemma {:induction false} TracksAt(s: Live, k: nat, cut: nat, j: nat, seed: Replay)
    requires Orderly(s) && 1 <= k <= cut <= |s.log| && k <= j <= |s.log|
    requires Later(s.log, cut, seed.leaseEpoch)
    requires Fold(INIT, s.log[..cut]).leaseEpoch < seed.leaseEpoch && !Fold(INIT, s.log[..cut]).status.Terminal()
    requires seed.fence == 0 && !seed.status.Terminal() && SeedShape(seed, Fold(INIT, s.log[..cut]))
    requires seed.status.Queued? ==> seed.task.worker == ""
    ensures Tracks(Fold(seed, s.log[k..j]), Fold(INIT, s.log[..j]), seed)
    ensures SeedShape(seed, Fold(INIT, s.log[..j]))
    decreases j
  {
    hide Apply, Orderly, SeedShape, Tracks, Fold, Later;
    var log := s.log;
    if k == j {
      assert log[k..k] == [];
      OrderlyShaped(s);
      NoTail(seed);
      TracksStart(log, k, cut, seed);
    } else {
      TracksAt(s, k, cut, j - 1, seed);
      assert log[k..j] == log[k..j - 1] + [log[j - 1]];
      FoldOne(seed, log[k..j - 1], log[j - 1]);
      FoldNext(INIT, log, j - 1);
      TracksNext(s, cut, j - 1, Fold(seed, log[k..j - 1]), seed);
    }
  }

  lemma NoTail(seed: Replay)
    ensures Fold(seed, []) == seed
  {}

  lemma OrderlyShaped(s: Live)
    requires Orderly(s)
    ensures Shaped(s.log)
  {}

  lemma OpenUntil(s: Live, cut: nat)
    requires cut <= |s.log| && !Fold(INIT, s.log[..cut]).status.Terminal() && Fold(INIT, s.log).status.Terminal()
    ensures cut < |s.log|
  {
    assert s.log[..|s.log|] == s.log;
  }

  lemma TracksStart(log: seq<Record>, k: nat, cut: nat, seed: Replay)
    requires Shaped(log) && 1 <= k <= cut <= |log|
    requires Fold(INIT, log[..cut]).leaseEpoch < seed.leaseEpoch && !Fold(INIT, log[..cut]).status.Terminal()
    requires seed.fence == 0 && !seed.status.Terminal() && SeedShape(seed, Fold(INIT, log[..cut]))
    requires seed.status.Queued? ==> seed.task.worker == ""
    ensures Tracks(seed, Fold(INIT, log[..k]), seed) && SeedShape(seed, Fold(INIT, log[..k]))
  {
    hide Apply, Shaped, Fold;
    ShapedPrefix(log, 1);
    FoldMonotone(log, k, cut);
  }

  /** A calm run only extends the log, with names from the current lease on. */
  predicate Extends(s: Live, p: Live) {
    && |p.log| <= |s.log| && s.log[..|p.log|] == p.log
    && Later(s.log, |p.log|, p.task.leaseEpoch)
    && p.task.leaseEpoch <= s.task.leaseEpoch && s.task.commandSeq == p.task.commandSeq
    && (p.task.status.Terminal() ==> s == p)
  }

  lemma NextExtends(s: Live, p: Live, act: Act)
    requires Extends(s, p) && Enabled(s, act) && Undisturbed(s, act)
    ensures Extends(Next(s, act), p)
  {
    hide HasStart, High, Keyed;
  }

  lemma {:induction false} RunExtends(spec: Spec, number: nat, acts: seq<Act>, i: nat)
    requires Calm(spec, number, acts) && i <= |acts|
    ensures Calm(spec, number, acts[..i]) && Extends(Run(spec, number, acts), Run(spec, number, acts[..i]))
  {
    hide Enabled, Undisturbed, Next, Extends;
    if i == |acts| {
      assert acts[..i] == acts;
      ExtendsSelf(Run(spec, number, acts));
    } else {
      var before := acts[..|acts| - 1];
      RunExtends(spec, number, before, i);
      assert before[..i] == acts[..i];
      NextExtends(Run(spec, number, before), Run(spec, number, acts[..i]), acts[|acts| - 1]);
    }
  }

  lemma ExtendsSelf(s: Live)
    ensures Extends(s, s)
  {}

  /** The checkpointed row of a lease replay already saw is replay's own row. */
  lemma StartedRow(p: Live)
    requires Orderly(p) && !p.task.status.Terminal()
    requires Fold(INIT, p.log).leaseEpoch == p.task.leaseEpoch
    ensures Fold(INIT, p.log).task == p.task.(commandSeq := 0)
  {
    hide Fold, Shaped, SettledLast, High, Headed, Epoched, HasStart, Unfenced, Replayed, Grounded, Sound;
    FullFacts(p);
    Memory(p.base, p.log);
    if p.task.status.Running? {
      SplitLog(p.log, 1, p.task.leaseEpoch);
    }
  }

  /** The higher of the last logged lease and the checkpointed one. */
  function Raised(row: Task, e: nat): Task {
    row.(leaseEpoch := Max(row.leaseEpoch, e))
  }

  /** The number of the row replay starts from stays with it. */
  function Numbered(task: Task, number: nat): Task {
    task.(commandSeq := number)
  }

  function Renumbered(s: Replay, number: nat): Replay {
    s.(task := Numbered(s.task, number))
  }

  lemma ApplyRenumbered(s: Replay, rec: Record, number: nat)
    requires !rec.Submitted?
    ensures Apply(Renumbered(s, number), rec) == Renumbered(Apply(s, rec), number)
  {}

  lemma {:induction false} FoldRenumbered(s: Replay, log: seq<Record>, number: nat)
    requires NoResubmission(log, 0)
    ensures Fold(Renumbered(s, number), log) == Renumbered(Fold(s, log), number)
  {
    hide Apply, Renumbered;
    if log != [] {
      FoldRenumbered(s, log[..|log| - 1], number);
      ApplyRenumbered(Fold(s, log[..|log| - 1]), log[|log| - 1], number);
    }
  }

  /** Replay from the numbered row is replay from the same row without its number. */
  lemma SeedNumbered(task: Task, spec: Spec, tail: seq<Record>)
    requires NoResubmission(tail, 0)
    ensures FinalTask(Fold(FromCheckpoint(task, spec), tail))
            == Numbered(FinalTask(Fold(FromCheckpoint(Numbered(task, 0), spec), tail)), task.commandSeq)
  {
    hide Fold;
    FoldRenumbered(FromCheckpoint(Numbered(task, 0), spec), tail, task.commandSeq);
    assert Numbered(Numbered(task, 0), task.commandSeq) == task;
  }

  lemma OpenCheckpoint(s: Live, p: Live, k: nat, spec: Spec)
    requires Orderly(s) && Orderly(p) && Extends(s, p) && !p.task.status.Terminal()
    requires 1 <= k <= |p.log| && Fold(INIT, p.log).spec == Some(spec)
    ensures var g := Fold(FromCheckpoint(Numbered(p.task, 0), spec), s.log[k..]);
            FinalTask(g) == Raised(FinalTask(Fold(INIT, s.log)), p.task.leaseEpoch)
  {
    hide Fold, Orderly, Shaped, SettledLast, High, Headed, Epoched, Later;
    var cut := |p.log|;
    OrderlyShaped(s);
    OpenFold(p);
    if Fold(INIT, p.log).leaseEpoch == p.task.leaseEpoch {
      StartedRow(p);
      OverlapAbsorbed(s.log, k, cut);
      LeaseGrows(s.log, cut);
    } else {
      var seed := FromCheckpoint(Numbered(p.task, 0), spec);
      assert s.log[k..|s.log|] == s.log[k..] && s.log[..|s.log|] == s.log;
      TracksAt(s, k, cut, |s.log|, seed);
      FoldInvariant(s.log);
      FinalTracks(Fold(seed, s.log[k..]), Fold(INIT, s.log), seed);
    }
  }

  lemma LeaseGrows(log: seq<Record>, cut: nat)
    requires Shaped(log) && 1 <= cut <= |log|
    ensures Fold(INIT, log[..cut]).leaseEpoch <= Fold(INIT, log).leaseEpoch
    ensures FinalTask(Fold(INIT, log)).leaseEpoch == Fold(INIT, log).leaseEpoch
  {
    hide Fold, Shaped;
    ShapedPrefix(log, 1);
    FoldMonotone(log, cut, |log|);
    assert log[..|log|] == log;
  }

  lemma OpenFold(p: Live)
    requires Orderly(p) && !p.task.status.Terminal()
    ensures var f := Fold(INIT, p.log);
            && !f.status.Terminal() && f.leaseEpoch <= p.task.leaseEpoch && f.ok
            && p.task.taskID == f.task.taskID && f.task.taskID != "" && p.task.identity == f.task.identity
            && p.task.result == EMPTY && p.task.error == "" && !p.task.status.Unspecified?
            && (p.task.status.Queued? ==> p.task.worker == "") && f.task.commandSeq == 0
  {
    hide Fold, Shaped, SettledLast, High, Headed, Epoched, Replayed, Sound;
    FullFacts(p);
  }

  lemma FinalTracks(g: Replay, f: Replay, seed: Replay)
    requires Tracks(g, f, seed) && SeedShape(seed, f) && ReplayInvariant(f)
    ensures FinalTask(g) == Raised(FinalTask(f), seed.leaseEpoch)
  {}

  /** A checkpoint taken anywhere in a calm run - stream position read first, row copied
      later, even in the middle of a lease that never started - restores with the tail
      after that position what the whole log gives. Only the lease epoch is as high as
      the checkpointed one, a success checkpointed with an error message keeps it, and the
      mailbox number of an actor task is kept where full replay loses it. */
  lemma CheckpointAnywhere(spec: Spec, number: nat, acts: seq<Act>, i: nat, k: nat)
    requires spec.taskID != "" && spec.leaseEpoch == 0 && Calm(spec, number, acts) && i <= |acts|
    requires 1 <= k <= |Run(spec, number, acts[..i]).log|
    ensures var s, p := Run(spec, number, acts), Run(spec, number, acts[..i]);
            k <= |s.log| && p.task.commandSeq == number &&
            var restored := FinalTask(Fold(FromCheckpoint(p.task, spec), s.log[k..]));
            var replayed := FinalTask(Fold(INIT, s.log));
            if p.task.status.Terminal() then restored == p.task && replayed == Logged(Genesis(spec), p.task)
            else restored == Numbered(Raised(replayed, p.task.leaseEpoch), number)
  {
    hide Fold, Run, Calm, Orderly, Extends;
    var s, p := Run(spec, number, acts), Run(spec, number, acts[..i]);
    RunExtends(spec, number, acts, i);
    CalmOrderly(spec, number, acts);
    CalmOrderly(spec, number, acts[..i]);
    ExtendsLength(s, p);
    KeepsNumber(spec, number, acts[..i]);
    if p.task.status.Terminal() {
      SettledCheckpoint(p, k, spec);
      ExtendsFrozen(s, p);
    } else {
      SpecKept(spec, number, acts[..i]);
      OpenCheckpoint(s, p, k, spec);
      OrderlyShaped(s);
      ShapedPrefix(s.log, 1);
      SeedNumbered(p.task, spec, s.log[k..]);
    }
  }

  lemma ExtendsLength(s: Live, p: Live)
    requires Extends(s, p)
    ensures |p.log| <= |s.log|
  {}

  lemma ExtendsFrozen(s: Live, p: Live)
    requires Extends(s, p) && p.task.status.Terminal()
    ensures s == p
  {}

  lemma SettledCheckpoint(p: Live, k: nat, spec: Spec)
    requires Orderly(p) && p.task.status.Terminal() && 1 <= k <= |p.log|
    ensures FinalTask(Fold(FromCheckpoint(p.task, spec), p.log[k..])) == p.task
    ensures FinalTask(Fold(INIT, p.log)) == Logged(Genesis(spec), p.task)
  {
    hide Fold, Shaped, SettledLast, High, Epoched, Replayed, Sound;
    FullFacts(p);
    Absorbing(FromCheckpoint(p.task, spec), p.log[k..]);
  }

  /** A calm run starts its log with the submission and keeps the mailbox number. */
  lemma KeepsNumber(spec: Spec, number: nat, acts: seq<Act>)
    requires Calm(spec, number, acts)
    ensures var s := Run(spec, number, acts);
            |s.log| >= 1 && s.log[0] == Submitted(spec) && s.task.commandSeq == number
  {
    hide Calm;
    RunExtends(spec, number, acts, 0);
    assert acts[..0] == [];
    var s := Run(spec, number, acts);
    assert s.log[..1] == [Submitted(spec)];
    assert s.log[0] == s.log[..1][0];
  }

  lemma SpecKept(spec: Spec, number: nat, acts: seq<Act>)
    requires spec.taskID != "" && spec.leaseEpoch == 0 && Calm(spec, number, acts)
    ensures Fold(INIT, Run(spec, number, acts).log).spec == Some(spec)
  {
    hide Fold, Run, Shaped, High, Orderly;
    CalmOrderly(spec, number, acts);
    KeepsNumber(spec, number, acts);
    var log := Run(spec, number, acts).log;
    OrderlyShaped(Run(spec, number, acts));
    ShapedPrefix(log, 1);
    FoldNext(INIT, log, 0);
    FoldMonotone(log, 1, |log|);
    assert log[..|log|] == log && log[..0] == [];
    NoTail(INIT);
  }
}
