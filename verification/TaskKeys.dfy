/** Keyed appends to a task stream: the log store drops a record whose idempotency key its
    stream has seen (internal/logstore/store.go:285-292, internal/control/service.go:859-915). */
module TaskKeys {
  import opened Basics
  import opened TaskLog

  /** Records of one stream under one idempotency key: the submission, and start and terminal
      records of a kind by worker and epoch. Redeliveries are keyed by their time. */
  predicate SameKey(a: Record, b: Record) {
    match a
    case Submitted(_) => b.Submitted?
    case Started(epoch, worker) => b.Started? && b.epoch == epoch && b.worker == worker
    case Completed(epoch, worker, _) => b.Completed? && b.epoch == epoch && b.worker == worker
    case TaskFailed(epoch, worker, _, _) => b.TaskFailed? && b.epoch == epoch && b.worker == worker
    case _ => false
  }

  predicate Keyed(log: seq<Record>, rec: Record) {
    exists k :: 0 <= k < |log| && SameKey(log[k], rec)
  }

  function Append(log: seq<Record>, rec: Record): seq<Record> {
    if Keyed(log, rec) then log else log + [rec]
  }

  /** Where the first record under a key stands; past the end if there is none. */
  function FirstKeyed(log: seq<Record>, rec: Record): nat {
    if log == [] then 0
    else
      var j := FirstKeyed(log[..|log| - 1], rec);
      if j < |log| - 1 then j else if SameKey(log[|log| - 1], rec) then |log| - 1 else |log|
  }

  lemma {:induction false} FirstKeyedAt(log: seq<Record>, rec: Record)
    ensures var j := FirstKeyed(log, rec);
            j <= |log| && (j < |log| ==> SameKey(log[j], rec)) && forall k :: 0 <= k < j ==> !SameKey(log[k], rec)
  {
    hide SameKey;
    if log != [] {
      FirstKeyedAt(log[..|log| - 1], rec);
    }
  }

  lemma AlikeTo(r: Record, a: Record, b: Record)
    requires a.IsTerminal() && SameKey(a, b)
    ensures SameKey(r, a) == SameKey(r, b)
  {}

  lemma KeyAlike(log: seq<Record>, a: Record, b: Record)
    requires a.IsTerminal() && SameKey(a, b)
    ensures Keyed(log, a) == Keyed(log, b) && FirstKeyed(log, a) == FirstKeyed(log, b)
  {
    hide SameKey, FirstKeyed;
    FirstKeyedAt(log, a);
    FirstKeyedAt(log, b);
    forall r ensures SameKey(r, a) == SameKey(r, b) {
      AlikeTo(r, a, b);
    }
  }

  lemma FirstIs(log: seq<Record>, rec: Record, j: nat)
    requires j < |log| && SameKey(log[j], rec) && forall k :: 0 <= k < j ==> !SameKey(log[k], rec)
    ensures Keyed(log, rec) && FirstKeyed(log, rec) == j
  {
    hide SameKey, FirstKeyed;
    FirstKeyedAt(log, rec);
  }

  lemma KeyAppended(log: seq<Record>, rec: Record, key: Record)
    requires !Keyed(log, rec) && rec.IsTerminal() && SameKey(rec, key)
    ensures Keyed(log + [rec], key) && FirstKeyed(log + [rec], key) == |log| && (log + [rec])[..|log|] == log
  {
    hide SameKey, FirstKeyed, Keyed;
    var more := log + [rec];
    KeyAlike(log, rec, key);
    NotKeyed(log, key);
    FirstIs(more, key, |log|);
  }

  lemma NotKeyed(log: seq<Record>, rec: Record)
    requires !Keyed(log, rec)
    ensures forall k :: 0 <= k < |log| ==> !SameKey(log[k], rec)
  {
    hide SameKey;
  }
}
