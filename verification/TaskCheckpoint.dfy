/** Metadata checkpoints for tasks (internal/control/checkpoint.go:276-322,
    560-577; internal/control/task_replay.go:53-65): the seed drops the redelivery
    fence and may already contain records the tail applies again. */
module TaskCheckpoint {
  import opened Basics
  import opened TaskLog

  /** The highest lease epoch a log names. */
  function High(log: seq<Record>): nat {
    if log == [] then 0
    else Max(High(log[..|log| - 1]), EpochOf(log[|log| - 1]))
  }

  function EpochOf(rec: Record): nat {
    if rec.Names() then rec.epoch else 0
  }

  /** A record an unrestarted control plane may append: a start opens an epoch above
      everything named so far, a redelivery or terminal record names one not below. */
  predicate InProtocol(high: nat, rec: Record) {
    match rec
    case Submitted(_) => false
    case Started(epoch, _) => epoch > high
    case Redelivered(epoch) => epoch >= high && epoch >= 1
    case Completed(epoch, _, _) => epoch >= high && epoch >= 1
    case TaskFailed(epoch, _, _, _) => epoch >= high && epoch >= 1
    case Unknown => true
    case Undecodable => false
  }

  predicate Shaped(log: seq<Record>) {
    && log != []
    && if |log| == 1 then log[0].Submitted? && log[0].spec.taskID != "" && log[0].spec.leaseEpoch == 0
       else Shaped(log[..|log| - 1]) && InProtocol(High(log[..|log| - 1]), log[|log| - 1])
  }

  lemma {:induction false} ShapedPrefix(log: seq<Record>, j: nat)
    requires Shaped(log) && 1 <= j <= |log|
    ensures Shaped(log[..j])
    ensures j < |log| ==> InProtocol(High(log[..j]), log[j])
    ensures NoResubmission(log, 1) && log[0].Submitted?
    decreases |log|
  {
    if |log| == 1 {
      assert log[..j] == log;
    } else if j == |log| {
      ShapedPrefix(log[..|log| - 1], 1);
      assert log[..j] == log;
    } else {
      var before := log[..|log| - 1];
      ShapedPrefix(before, if j < |log| - 1 then j else 1);
      assert before[..j] == log[..j];
      assert j == |log| - 1 ==> before == log[..j];
    }
  }

  /** How replay and the highest named epoch sit together on a shaped log. */
  predicate Under(s: Replay, high: nat) {
    ReplayInvariant(s) && s.ok && s.leaseEpoch <= high && s.fence <= high
    && (s.leaseEpoch == 0 ==> !s.status.Running?)
  }

  lemma UnderStep(s: Replay, high: nat, rec: Record)
    requires Under(s, high) && InProtocol(high, rec)
    ensures Under(Apply(s, rec), Max(high, EpochOf(rec)))
    ensures Apply(s, rec).leaseEpoch > s.leaseEpoch ==> Apply(s, rec).leaseEpoch > high
    ensures Apply(s, rec).leaseEpoch == s.leaseEpoch && s.status.Queued? ==> Apply(s, rec).status.Queued?
  {}

  lemma HighNext(log: seq<Record>, j: nat)
    requires j < |log|
    ensures High(log[..j + 1]) == Max(High(log[..j]), EpochOf(log[j]))
  {
    assert log[..j + 1][..j] == log[..j];
  }

  lemma {:induction false} UnderAt(log: seq<Record>, j: nat)
    requires Shaped(log) && 1 <= j <= |log|
    ensures Under(Fold(INIT, log[..j]), High(log[..j]))
    decreases j
  {
    hide Apply, Shaped, InProtocol, EpochOf;
    if j == 1 {
      UnderFirst(log);
    } else {
      UnderAt(log, j - 1);
      ShapedPrefix(log, j - 1);
      UnderStep(Fold(INIT, log[..j - 1]), High(log[..j - 1]), log[j - 1]);
      FoldNext(INIT, log, j - 1);
      HighNext(log, j - 1);
    }
  }

  lemma UnderFirst(log: seq<Record>)
    requires Shaped(log)
    ensures Under(Fold(INIT, log[..1]), High(log[..1]))
  {
    ShapedPrefix(log, 1);
    assert log[..1][..0] == [];
    FoldNext(INIT, log, 0);
  }

  /** A lease that starts later is above everything named before; a queue that sees no
      new lease stays a queue. */
  lemma {:induction false} LaterStart(log: seq<Record>, j: nat, cut: nat)
    requires Shaped(log) && 1 <= j <= cut <= |log|
    ensures var s, t := Fold(INIT, log[..j]), Fold(INIT, log[..cut]);
            && s.leaseEpoch <= t.leaseEpoch
            && High(log[..j]) <= High(log[..cut])
            && (s.leaseEpoch < t.leaseEpoch ==> t.leaseEpoch > High(log[..j]))
            && (s.leaseEpoch == t.leaseEpoch && s.status.Queued? ==> t.status.Queued?)
    decreases cut
  {
    hide Apply, Shaped, InProtocol, EpochOf, ReplayInvariant;
    if j < cut {
      LaterStart(log, j, cut - 1);
      UnderAt(log, cut - 1);
      ShapedPrefix(log, cut - 1);
      var s := Fold(INIT, log[..cut - 1]);
      UnderStep(s, High(log[..cut - 1]), log[cut - 1]);
      FoldNext(INIT, log, cut - 1);
      HighNext(log, cut - 1);
      ShapedMonotone(s, log, cut - 1);
    }
  }

  lemma ShapedMonotone(s: Replay, log: seq<Record>, j: nat)
    requires Shaped(log) && 1 <= j < |log|
    ensures s.leaseEpoch <= Apply(s, log[j]).leaseEpoch
  {
    ShapedPrefix(log, j);
    ApplyMonotone(s, log[j]);
  }

  // ---- Overlap --------------------------------------------------------------------------

  /** While known records are re-applied, status and worker are the seed's or, once the
      seed's lease has started again, full replay's; the fence only lags behind. */
  predicate Overlapping(g: Replay, f: Replay, seed: Replay) {
    && g.spec == seed.spec && g.ok == seed.ok && g.leaseEpoch == seed.leaseEpoch
    && g.fence <= f.fence
    && g.task == seed.task.(status := g.status, worker := g.task.worker)
    && ((g.status == seed.status && g.task.worker == seed.task.worker)
        || (f.leaseEpoch == seed.leaseEpoch && g.status == f.status && g.task.worker == f.task.worker))
  }

  lemma OverlapStep(g: Replay, f: Replay, seed: Replay, high: nat, rec: Record)
    requires Under(f, high) && InProtocol(high, rec) && Overlapping(g, f, seed)
    requires !seed.status.Terminal() && !f.status.Terminal() && !Apply(f, rec).status.Terminal()
    requires f.leaseEpoch <= seed.leaseEpoch && ReplayInvariant(seed) && seed.ok
    requires Apply(f, rec).leaseEpoch <= seed.leaseEpoch
    requires Apply(f, rec).leaseEpoch < seed.leaseEpoch ==> seed.leaseEpoch > Max(high, EpochOf(rec))
    requires f.leaseEpoch == seed.leaseEpoch && f.status.Queued? ==> seed.status.Queued?
    ensures Overlapping(Apply(g, rec), Apply(f, rec), seed)
  {}

  lemma {:induction false} OverlapAt(log: seq<Record>, k: nat, j: nat, cut: nat)
    requires Shaped(log) && 1 <= k <= j <= cut <= |log|
    requires !Fold(INIT, log[..cut]).status.Terminal()
    ensures var seed := Fold(INIT, log[..cut]);
            Overlapping(Fold(seed.(fence := 0), log[k..j]), Fold(INIT, log[..j]), seed)
    decreases j
  {
    hide Apply, Shaped, InProtocol, EpochOf, ReplayInvariant, High, Overlapping;
    var seed := Fold(INIT, log[..cut]);
    var dropped := seed.(fence := 0);
    if k == j {
      assert log[k..k] == [];
      UnderAt(log, cut);
      OverlapStart(Fold(INIT, log[..j]), seed);
    } else {
      OverlapAt(log, k, j - 1, cut);
      assert log[k..j] == log[k..j - 1] + [log[j - 1]];
      FoldOne(dropped, log[k..j - 1], log[j - 1]);
      FoldNext(INIT, log, j - 1);
      HighNext(log, j - 1);
      ShapedPrefix(log, j - 1);
      UnderAt(log, j - 1);
      UnderAt(log, cut);
      LaterStart(log, j - 1, cut);
      LaterStart(log, j, cut);
      StillOpen(log, j - 1, cut);
      StillOpen(log, j, cut);
      OverlapStep(Fold(dropped, log[k..j - 1]), Fold(INIT, log[..j - 1]), seed, High(log[..j - 1]), log[j - 1]);
    }
  }

  lemma OverlapStart(f: Replay, seed: Replay)
    requires ReplayInvariant(seed) && seed.ok
    ensures Overlapping(seed.(fence := 0), f, seed)
  {}

  lemma StillOpen(log: seq<Record>, j: nat, cut: nat)
    requires Shaped(log) && 1 <= j <= cut <= |log| && !Fold(INIT, log[..cut]).status.Terminal()
    ensures !Fold(INIT, log[..j]).status.Terminal()
  {
    hide Apply, Shaped;
    ShapedPrefix(log, 1);
    FoldMonotone(log, j, cut);
  }

  /** The overlap ends with the seed again, up to the fence. */
  lemma OverlapMeets(g: Replay, seed: Replay)
    requires Overlapping(g, seed, seed)
    requires ReplayInvariant(seed) && seed.ok
    ensures g == seed.(fence := g.fence) && g.fence <= seed.fence
  {}

  /** A lagging fence below the lease changes no decision on a shaped log. */
  lemma LaggingStep(f: Replay, fence: nat, high: nat, rec: Record)
    requires Under(f, high) && InProtocol(high, rec) && fence <= f.fence
    ensures var g := Apply(f.(fence := fence), rec);
            g == Apply(f, rec).(fence := g.fence) && g.fence <= Apply(f, rec).fence
  {}

  lemma {:induction false} LaggingAt(log: seq<Record>, cut: nat, j: nat, fence: nat)
    requires Shaped(log) && 1 <= cut <= j <= |log| && fence <= Fold(INIT, log[..cut]).fence
    ensures var g := Fold(Fold(INIT, log[..cut]).(fence := fence), log[cut..j]);
            var f := Fold(INIT, log[..j]);
            g == f.(fence := g.fence) && g.fence <= f.fence
    decreases j
  {
    hide Apply, Shaped, InProtocol, EpochOf, ReplayInvariant, High, Under;
    var start := Fold(INIT, log[..cut]).(fence := fence);
    if cut == j {
      assert log[cut..cut] == [];
    } else {
      LaggingAt(log, cut, j - 1, fence);
      assert log[cut..j] == log[cut..j - 1] + [log[j - 1]];
      FoldOne(start, log[cut..j - 1], log[j - 1]);
      FoldNext(INIT, log, j - 1);
      ShapedPrefix(log, j - 1);
      UnderAt(log, j - 1);
      LaggingStep(Fold(INIT, log[..j - 1]), Fold(start, log[cut..j - 1]).fence, High(log[..j - 1]), log[j - 1]);
    }
  }

  lemma {:induction false} Absorbing(s: Replay, log: seq<Record>)
    requires s.status.Terminal() && NoResubmission(log, 0)
    ensures Fold(s, log) == s
  {
    if log != [] {
      Absorbing(s, log[..|log| - 1]);
    }
  }

  lemma {:induction false} FoldAppend(s: Replay, a: seq<Record>, b: seq<Record>)
    ensures Fold(s, a + b) == Fold(Fold(s, a), b)
    decreases |b|
  {
    hide Apply;
    if b == [] {
      assert a + b == a;
    } else {
      FoldAppend(s, a, b[..|b| - 1]);
      assert (a + b)[..|a + b| - 1] == a + b[..|b| - 1];
    }
  }

  lemma ClosedTail(log: seq<Record>, k: nat, cut: nat)
    requires Shaped(log) && 1 <= k <= cut <= |log| && Fold(INIT, log[..cut]).status.Terminal()
    ensures Fold(INIT, log) == Fold(INIT, log[..cut])
    ensures var dropped := Fold(INIT, log[..cut]).(fence := 0); Fold(dropped, log[k..]) == dropped
  {
    hide Apply, Shaped, Fold;
    ShapedPrefix(log, 1);
    assert log[..|log|] == log;
    Absorbing(Fold(INIT, log[..cut]).(fence := 0), log[k..]);
    FoldMonotone(log, cut, |log|);
  }

  lemma OpenOverlap(log: seq<Record>, k: nat, cut: nat)
    requires Shaped(log) && 1 <= k <= cut <= |log| && !Fold(INIT, log[..cut]).status.Terminal()
    ensures var seed := Fold(INIT, log[..cut]);
            var mid := Fold(seed.(fence := 0), log[k..cut]);
            mid == seed.(fence := mid.fence) && mid.fence <= seed.fence
  {
    hide Apply, Shaped, InProtocol, High, Overlapping, ReplayInvariant, Fold;
    UnderAt(log, cut);
    OverlapAt(log, k, cut, cut);
    var seed := Fold(INIT, log[..cut]);
    OverlapMeets(Fold(seed.(fence := 0), log[k..cut]), seed);
  }

  lemma OpenTail(log: seq<Record>, k: nat, cut: nat)
    requires Shaped(log) && 1 <= k <= cut <= |log| && !Fold(INIT, log[..cut]).status.Terminal()
    ensures var f := Fold(INIT, log);
            var g := Fold(Fold(INIT, log[..cut]).(fence := 0), log[k..]);
            g == f.(fence := g.fence)
  {
    hide Apply, Shaped, Fold;
    var dropped := Fold(INIT, log[..cut]).(fence := 0);
    var mid := Fold(dropped, log[k..cut]);
    OpenOverlap(log, k, cut);
    LaggingAt(log, cut, |log|, mid.fence);
    assert log[..|log|] == log && log[cut..|log|] == log[cut..];
    assert log[k..] == log[k..cut] + log[cut..];
    FoldAppend(dropped, log[k..cut], log[cut..]);
  }

  /** For every shaped log and cuts 1 <= k <= cut, the checkpoint taken after `cut` with
      the tail after `k` ends in the same row and specification as the whole log. */
  lemma OverlapAbsorbed(log: seq<Record>, k: nat, cut: nat)
    requires Shaped(log) && 1 <= k <= cut <= |log|
    ensures var seed := Fold(INIT, log[..cut]);
            && seed.spec.Some?
            && var g := Fold(FromCheckpoint(seed.task, seed.spec.value), log[k..]);
               FinalTask(g) == FinalTask(Fold(INIT, log)) && FinalSpec(g) == FinalSpec(Fold(INIT, log))
  {
    hide Apply, Shaped, High, Fold;
    var seed := Fold(INIT, log[..cut]);
    UnderAt(log, cut);
    if seed.status.Terminal() {
      ClosedTail(log, k, cut);
    } else {
      OpenTail(log, k, cut);
    }
    var g := Fold(seed.(fence := 0), log[k..]);
  }
}
