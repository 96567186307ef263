/** Actor logs on which replay, trimming and the live row part: the inputs behind the exact
    conditions of ActorSnapshot, ActorReplay and ActorService
    (internal/control/actor.go:158-252,467-515, internal/actor/model.go:160-181). */
module ActorWitnesses {
  import opened Basics
  import opened ActorLog
  import opened ActorSnapshot
  import opened ActorReplay
  import opened ActorService

  const STATE: Bytes := Bytes("s", 0)
  const STORE: Store := map["r" := STATE]

  const CREATED: Event := Created("C", "src", EMPTY, 1, "", "", 1)
  const GRANTED: Event := Granted("w", 1, 2)

  function AppliedAs(n: nat): Event { Applied(n, n, "w", 1, STATE, 4) }

  function SnapshotAt(n: nat): Event { Snapshot("C", "src", EMPTY, "w", 1, "r", 1, n, 5) }

  function Owned(): State {
    NewState("a", CREATED).(owner := "w", epoch := 1, updatedAt := 2)
  }

  /** The row after `submitted` submissions and `count` commands. */
  function Row(submitted: nat, count: nat, at: int): State {
    Owned().(submitted := submitted, count := count, stateJson := if count > 0 then STATE else EMPTY, updatedAt := at)
  }

  lemma StartOf(log: seq<Event>)
    requires |log| >= 2 && log[0] == CREATED && log[1] == GRANTED
    ensures WellOrdered("a", STORE, log[..2]) && FullState("a", log[..2]) == Owned()
  {
    hide FullState, WellOrdered;
    FirstRecord("a", STORE, CREATED, NewState("a", CREATED));
    assert log[..1] == [CREATED];
    NextRecord("a", STORE, log, 1, NewState("a", CREATED), Owned());
  }

  /** Trimming with a submission pending: the counter is gone. */
  lemma PendingTrim()
    ensures var log := [CREATED, GRANTED, Submitted(1, 3), Submitted(2, 3), AppliedAs(1), SnapshotAt(1)];
            && WellOrdered("a", STORE, log)
            && FullState("a", log).submitted == 2 && FullState("a", log).count == 1
            && !Consistent(AssistedState("a", STORE, log[5..]), AssistedState("a", STORE, log))
  {
    hide FullState, WellOrdered, AssistedState, Consistent;
    var log := [CREATED, GRANTED, Submitted(1, 3), Submitted(2, 3), AppliedAs(1), SnapshotAt(1)];
    StartOf(log);
    NextRecord("a", STORE, log, 2, Owned(), Row(1, 0, 3));
    NextRecord("a", STORE, log, 3, Row(1, 0, 3), Row(2, 0, 3));
    NextRecord("a", STORE, log, 4, Row(2, 0, 3), Row(2, 1, 4));
    NextRecord("a", STORE, log, 5, Row(2, 1, 4), Row(2, 1, 5).(snapshotRef := "r", snapshotCount := 1));
    assert log[..6] == log;
    TrimWhilePending("a", STORE, log);
    AssistedEqualsFull("a", STORE, log);
  }

  /** A log that starts at a snapshot older than the latest one: full replay counts short. */
  lemma OlderTrim()
    ensures var log :=
              [CREATED, GRANTED, Submitted(1, 3), AppliedAs(1), SnapshotAt(1), Submitted(2, 3), AppliedAs(2),
               SnapshotAt(2)];
            && WellOrdered("a", STORE, log) && FullState("a", log).count == 2
            && var r := RawReplay("a", log[4..], Some(STORE)); r.Success? && r.value.fullCommands != 2
  {
    hide FullState, WellOrdered, RawReplay, AssistedState;
    var log := [CREATED, GRANTED, Submitted(1, 3), AppliedAs(1), SnapshotAt(1), Submitted(2, 3), AppliedAs(2),
                SnapshotAt(2)];
    StartOf(log);
    var one := Row(1, 1, 5).(snapshotRef := "r", snapshotCount := 1);
    NextRecord("a", STORE, log, 2, Owned(), Row(1, 0, 3));
    NextRecord("a", STORE, log, 3, Row(1, 0, 3), Row(1, 1, 4));
    NextRecord("a", STORE, log, 4, Row(1, 1, 4), one);
    NextRecord("a", STORE, log, 5, one, one.(submitted := 2, updatedAt := 3));
    NextRecord("a", STORE, log, 6, one.(submitted := 2, updatedAt := 3),
               one.(submitted := 2, count := 2, updatedAt := 4));
    NextRecord("a", STORE, log, 7, one.(submitted := 2, count := 2, updatedAt := 4),
               one.(submitted := 2, count := 2, updatedAt := 5, snapshotCount := 2));
    assert log[..8] == log;
    ReplayCounters("a", STORE, log, 4);
  }

  /** A submission refused after its append: log and row are one apart. */
  lemma RefusedSubmission()
    ensures var log := [CREATED, GRANTED, Submitted(1, 3)];
            && Sound("a", STORE, [CREATED, GRANTED], Owned(), 0, NO_DRIFT)
               && Sound("a", STORE, log, Owned(), 1, NO_DRIFT)
            && var r := RawReplay("a", log, Some(STORE)); r.Success? && !Consistent(r.value.state, Owned())
  {
    hide FullState, WellOrdered, RawReplay, AssistedState, Unskipped;
    var start, log := [CREATED, GRANTED], [CREATED, GRANTED, Submitted(1, 3)];
    StartOf(start);
    assert start[..2] == start && start + [Submitted(1, 3)] == log && log[0..] == log;
    SubmitSound("a", STORE, start, Owned(), 0, NO_DRIFT, 3);
    ReplayCounters("a", STORE, log, 0);
    AssistedEqualsFull("a", STORE, log);
  }

  function FailedAs(n: nat): Event { Failed(n, n, "w", 1, 4) }

  /** One submitted call, no restart yet. */
  function OneCall(): Cell {
    var log := [CREATED, GRANTED, Submitted(1, 3)];
    Cell(log, log, [], 0, log, Some(Row(1, 0, 3)), map["c" := 1], 0, NO_DRIFT, {}, false, STORE)
  }

  /** The call fails. */
  function OneFailed(): Cell {
    Recorded(OneCall(), FailedAs(1), CommandRow(Row(1, 0, 3), FailedAs(1), 1), OneCall().tasks, {"c"})
  }

  /** A restart brings it back without its number. */
  function BroughtBack(): Cell {
    OneFailed().(tasks := map["c" := 0], restarted := true)
  }

  /** It fails again: the log has that record already, and the row moves on. */
  function RanAhead(): Cell {
    Repeated(BroughtBack(), FailedAs(2), CommandRow(BroughtBack().meta.value, FailedAs(2), 2), BroughtBack().tasks,
             {"c"})
  }

  /** The next record - of another call - skips a number. */
  function CaughtUp(): Cell {
    Recorded(RanAhead(), FailedAs(3), CommandRow(RanAhead().meta.value, FailedAs(3), 3), RanAhead().tasks, {"c", "d"})
  }

  lemma OneCallSound()
    ensures var log := [CREATED, GRANTED, Submitted(1, 3)]; Sound("a", STORE, log, Row(1, 0, 3), 0, NO_DRIFT)
  {
    hide FullState, WellOrdered;
    var log := [CREATED, GRANTED, Submitted(1, 3)];
    StartOf(log);
    NextRecord("a", STORE, log, 2, Owned(), Row(1, 0, 3));
    assert log[..3] == log;
  }

  lemma OneNumber(m: State, recorded: set<string>)
    requires m.submitted == 1 && m.count <= 1 && recorded <= {"c"} && (recorded == {} || m.count == 1)
    ensures Mailbox(map["c" := 1], m, 0, recorded)
  {
    var tasks := map["c" := 1];
    forall n: nat | 1 <= n <= 1 ensures Held(tasks, n) {
      assert tasks["c"] == n;
    }
  }

  lemma OneCallKept()
    ensures Kept("a", OneCall())
  {
    hide Sound, Mailbox;
    OneCallSound();
    OneNumber(Row(1, 0, 3), {});
    assert OneCall().log[0..] == OneCall().log;
  }

  lemma MailboxDone()
    ensures var e, c := FailedAs(1), OneCall();
            Mailbox(c.tasks, CommandRow(c.meta.value, e, 1), Marked(Mentioned(c), e) - 1, {"c"})
  {
    hide Mailbox;
    OneNumber(CommandRow(Row(1, 0, 3), FailedAs(1), 1), {"c"});
  }

  lemma KeptBack()
    requires Kept("a", OneFailed())
    ensures Kept("a", BroughtBack())
  {
    hide Sound, Mailbox, Kept;
    var c := OneFailed();
    KeptParts("a", c);
    SameFrameSelf(c.meta.value);
    KeptRestart("a", c, c.meta.value, map["c" := 0], c.lost);
  }

  /** The log counts commands 1 and 3. */
  lemma SkippedOne()
    requires Kept("a", RanAhead())
    ensures var log := CaughtUp().history; !Unskipped("a", log, LastSnapshot(log) + 1, |log|)
  {
    hide Kept, FullState, WellOrdered;
    var log := CaughtUp().history;
    KeptParts("a", RanAhead());
    assert log[..4] == RanAhead().history && log[4] == FailedAs(3);
    assert LastSnapshot(log) < 4;
  }

  lemma FailedKept()
    ensures Kept("a", OneFailed())
  {
    hide Kept, Sound, Mailbox, Recorded;
    OneCallKept();
    MailboxDone();
    KeptCommand("a", OneCall(), FailedAs(1), 1, {"c"});
  }

  lemma ComesNext()
    ensures var c := BroughtBack(); c.restarted && c.meta.Some? && NextCommand(c.meta.value, FailedAs(2), 2)
    ensures var c := RanAhead(); c.restarted && c.meta.Some? && NextCommand(c.meta.value, FailedAs(3), 3)
  {}

  lemma AheadKept()
    ensures Kept("a", RanAhead())
  {
    hide Kept, Repeated, Recorded;
    FailedKept();
    KeptBack();
    ComesNext();
    KeptCommand("a", BroughtBack(), FailedAs(2), 2, {"c"});
  }

  lemma CaughtUpKept()
    ensures Kept("a", CaughtUp())
  {
    hide Kept, Recorded;
    AheadKept();
    ComesNext();
    KeptCommand("a", RanAhead(), FailedAs(3), 3, {"c", "d"});
  }

  /** A repeated call leaves the row one command ahead of its log, and the record after it
      brings both to one count, past a number that no record has. */
  lemma RerunRunsAhead()
    ensures Kept("a", RanAhead()) && Kept("a", CaughtUp())
    ensures var r := RawReplay("a", RanAhead().log, Some(STORE));
            && RanAhead().log == OneFailed().log
            && RanAhead().meta.value.count == 2 && r.Success? && r.value.state.count == 1
    ensures var r := RawReplay("a", CaughtUp().log, Some(STORE));
            && CaughtUp().log == OneFailed().log + [FailedAs(3)]
            && CaughtUp().meta.value.count == 3 && r.Success? && r.value.state.count == 3
            && r.value.snapshotCommands < 3
  {
    hide Kept, RawReplay, KeptRow, FullState, AssistedState, Sound, Mailbox;
    FailedKept();
    ReadableRow("a", OneFailed());
    AheadKept();
    CaughtUpKept();
    ReadableRow("a", RanAhead());
    ReadableRow("a", CaughtUp());
    SkippedOne();
    assert CaughtUp().log == OneFailed().log + [FailedAs(3)];
  }

  /** The replayed row of a kept cell counts what the row does, less what it ran ahead. */
  lemma ReadableRow(actorID: string, c: Cell)
    requires Kept(actorID, c) && c.meta.Some?
    ensures var r := RawReplay(actorID, c.log, Some(c.store));
            r.Success? && r.value.state.count + c.drift.ahead == c.meta.value.count
            && r.value.snapshotCommands <= r.value.state.count - r.value.state.snapshotCount
            && (c.base == 0 && !Unskipped(actorID, c.history, LastSnapshot(c.history) + 1, |c.history|) ==>
                  r.value.snapshotCommands < r.value.state.count - r.value.state.snapshotCount)
  {
    hide FullState, WellOrdered, RawReplay, Unskipped, LastSnapshot;
    ReadableReplay(actorID, c);
  }
}
