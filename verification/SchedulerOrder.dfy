/** Whom the scheduler serves, and in which order: its answers in terms of what stands in the
    queues (internal/control/scheduler.go:204-244,346-377,455-478). */
module SchedulerOrder {
  import opened Basics
  import opened SchedulerState

  /** A live entry of a queue: its task waits under this queue's kind. */
  predicate Live(s: Sched, key: QueueKey, id: string) {
    id in s.taskMeta && id in s.queued && s.queued[id] == key.Kind()
  }

  /** Actor mailboxes take the owner's next command only; other queues know no turns. */
  function TurnAt(w: Snapshot, key: QueueKey): nat {
    if key.ActorQueue? && key.actor in w.nextSeq then w.nextSeq[key.actor] else 0
  }

  predicate OnItsTurn(meta: SchedMeta, turn: nat) {
    turn == 0 || meta.commandSeq == 0 || meta.commandSeq == turn
  }

  /** The entry at `i` may be handed out: live, at its turn, approved, and nothing live stands
      before it but what is dropped. */
  predicate OfferedAt(s: Sched, key: QueueKey, turn: nat, check: Check, i: nat)
    requires i < |Line(s, key)|
  {
    var line := Line(s, key);
    && Live(s, key, line[i]) && OnItsTurn(s.taskMeta[line[i]], turn) && check(s.taskMeta[line[i]]) == Assign
    && forall j :: 0 <= j < i && Live(s, key, line[j]) ==>
         OnItsTurn(s.taskMeta[line[j]], turn) && check(s.taskMeta[line[j]]) == Drop
  }

  predicate Offered(s: Sched, key: QueueKey, turn: nat, check: Check, id: string) {
    exists i :: 0 <= i < |Line(s, key)| && Line(s, key)[i] == id && OfferedAt(s, key, turn, check, i)
  }

  ghost predicate Idle(s: Sched, key: QueueKey, turn: nat, check: Check) {
    forall id :: !Offered(s, key, turn, check, id)
  }

  // ---- One queue ---------------------------------------------------------------------------

  lemma {:induction false} StandingAt(s: Sched, key: QueueKey, check: Check, line: seq<string>)
    ensures var i := FirstStanding(s, key, check, line);
            && (forall j :: 0 <= j < i ==> Passed(s, key, check, line[j]))
            && (i < |line| ==> !Passed(s, key, check, line[i]))
  {
    hide Passed;
    if line != [] && Passed(s, key, check, line[0]) {
      StandingAt(s, key, check, line[1..]);
      var i := FirstStanding(s, key, check, line[1..]);
      forall j | 0 <= j < 1 + i ensures Passed(s, key, check, line[j]) {
        assert j > 0 ==> line[j] == line[1..][j - 1];
      }
    }
  }

  /** `c` is `check` under the queue's turn. */
  ghost predicate Turned(c: Check, turn: nat, check: Check) {
    forall meta :: c(meta) == if OnItsTurn(meta, turn) then check(meta) else Skip
  }

  /** The first standing entry is the only one on offer. */
  lemma OneOffer(s: Sched, key: QueueKey, turn: nat, check: Check, c: Check, i: nat)
    requires Turned(c, turn, check) && i < |Line(s, key)|
    ensures OfferedAt(s, key, turn, check, i) <==>
              && i == FirstStanding(s, key, c, Line(s, key))
              && Live(s, key, Line(s, key)[i]) && c(s.taskMeta[Line(s, key)[i]]) == Assign
  {
    StandingAt(s, key, c, Line(s, key));
  }

  /** nextFromQueueLocked answers with what the queue offers, if it offers anything. */
  lemma ScanOffers(s: Sched, key: QueueKey, turn: nat, check: Check, c: Check)
    requires Turned(c, turn, check)
    ensures var r := Scan(s, key, c).1;
            if r.None? then Idle(s, key, turn, check)
            else exists id :: Offered(s, key, turn, check, id) && id in s.taskMeta && s.taskMeta[id] == r.value
  {
    hide Scan, OfferedAt, Turned, Stale;
    var line, i := Line(s, key), FirstStanding(s, key, c, Line(s, key));
    ScanServesFirst(s, key, c);
    forall j | 0 <= j < |line|
      ensures OfferedAt(s, key, turn, check, j)
              <==> j == i && Live(s, key, line[j]) && c(s.taskMeta[line[j]]) == Assign
    {
      OneOffer(s, key, turn, check, c, j);
    }
    if Scan(s, key, c).1.Some? {
      StandingLive(s, key, c);
      assert Offered(s, key, turn, check, line[i]);
    }
  }

  lemma StandingLive(s: Sched, key: QueueKey, c: Check)
    ensures var line, i := Line(s, key), FirstStanding(s, key, c, Line(s, key));
            i < |line| ==> Live(s, key, line[i])
  {
    StandingAt(s, key, c, Line(s, key));
  }

  // ---- Many queues -------------------------------------------------------------------------

  /** No task in two queues may be dropped from one of them: with fixed routing keys because
      there is none, in the control plane because nothing queued is dropped. */
  ghost predicate Separate(s: Sched, check: Check) {
    forall a, b, id :: a != b && id in Line(s, a) && id in Line(s, b) && id in s.taskMeta && id in s.queued ==>
      check(s.taskMeta[id]) != Drop
  }

  lemma RoutedSeparate(s: Sched, route: string -> QueueKey, check: Check)
    requires Routed(s, route)
    ensures Separate(s, check)
  {
    forall a, b, id | id in Line(s, a) && id in Line(s, b) ensures a == b {
      assert route(id) == a && route(id) == b;
    }
  }

  /** What a scan that hands nothing out takes away: what it dropped. */
  ghost predicate Dropping(s: Sched, t: Sched, key: QueueKey, c: Check) {
    && (forall id :: id in t.queued ==> id in s.queued && t.queued[id] == s.queued[id])
    && (forall id :: id in t.taskMeta ==> id in s.taskMeta && t.taskMeta[id] == s.taskMeta[id])
    && (forall id :: id in s.queued && id !in t.queued ==>
          id in s.taskMeta && id in Line(s, key) && c(s.taskMeta[id]) == Drop)
    && (forall id :: id in s.taskMeta && id !in t.taskMeta ==>
          id in s.queued && id in Line(s, key) && c(s.taskMeta[id]) == Drop)
  }

  lemma {:induction false} ScanDrops(s: Sched, key: QueueKey, c: Check)
    requires Scan(s, key, c).1.None?
    ensures Dropping(s, Scan(s, key, c).0, key, c)
    decreases |Line(s, key)|
  {
    hide Dropping;
    var line := Line(s, key);
    ScanStep(s, key, c);
    if line == [] {
      DroppingNothing(s, s, key, c);
    } else {
      var popped := WithLine(s, key, line[1..]);
      if Stale(s, key, line[0]) {
        ScanDrops(popped, key, c);
        DroppingMore(s, popped, Scan(popped, key, c).0, key, c);
      } else if c(s.taskMeta[line[0]]) == Drop {
        var d := popped.(queued := s.queued - {line[0]}, taskMeta := s.taskMeta - {line[0]});
        var t := Cleanup(d, key, s.taskMeta[line[0]]);
        CleanupLines(d, key, s.taskMeta[line[0]]);
        ScanDrops(t, key, c);
        DroppingMore(s, t, Scan(t, key, c).0, key, c);
      } else {
        DroppingNothing(s, s, key, c);
      }
    }
  }

  lemma DroppingNothing(s: Sched, t: Sched, key: QueueKey, c: Check)
    requires t.queued == s.queued && t.taskMeta == s.taskMeta
    ensures Dropping(s, t, key, c)
  {}

  /** After the head went - as stale or dropped - the rest. */
  lemma DroppingMore(s: Sched, t: Sched, u: Sched, key: QueueKey, c: Check)
    requires Line(s, key) != [] && Line(t, key) == Line(s, key)[1..] && Dropping(t, u, key, c)
    requires var id := Line(s, key)[0];
             || (t.queued == s.queued && t.taskMeta == s.taskMeta)
             || (id in s.taskMeta && id in s.queued && c(s.taskMeta[id]) == Drop
                 && t.queued == s.queued - {id} && t.taskMeta == s.taskMeta - {id})
    ensures Dropping(s, u, key, c)
  {
    assert forall x :: x in Line(s, key)[1..] ==> x in Line(s, key);
  }

  /** Every queue offers in one state what it offers in the other. */
  ghost predicate SameOffers(s: Sched, t: Sched, w: Snapshot, check: Check) {
    forall key, id :: Offered(s, key, TurnAt(w, key), check, id) <==> Offered(t, key, TurnAt(w, key), check, id)
  }

  /** A queue whose entries stay as they are. */
  lemma SameQueue(s: Sched, t: Sched, key: QueueKey, turn: nat, check: Check, id: string)
    requires Line(s, key) == Line(t, key)
    requires forall x :: x in Line(s, key) ==>
      Live(s, key, x) == Live(t, key, x) && (Live(s, key, x) ==> s.taskMeta[x] == t.taskMeta[x])
    ensures Offered(s, key, turn, check, id) <==> Offered(t, key, turn, check, id)
  {
    hide OnItsTurn, Live;
    forall i | 0 <= i < |Line(s, key)|
      ensures OfferedAt(s, key, turn, check, i) <==> OfferedAt(t, key, turn, check, i)
    {
      SameEntry(s, t, key, turn, check, i);
    }
  }

  lemma SameEntry(s: Sched, t: Sched, key: QueueKey, turn: nat, check: Check, i: nat)
    requires Line(s, key) == Line(t, key) && i < |Line(s, key)|
    requires forall x :: x in Line(s, key) ==>
      Live(s, key, x) == Live(t, key, x) && (Live(s, key, x) ==> s.taskMeta[x] == t.taskMeta[x])
    ensures OfferedAt(s, key, turn, check, i) <==> OfferedAt(t, key, turn, check, i)
  {}

  /** A scan that hands nothing out leaves every other queue's offers alone. */
  lemma OtherQueue(
    s: Sched, t: Sched, key: QueueKey, c: Check, check: Check, turn: nat, other: QueueKey, k: nat, id: string)
    requires Dropping(s, t, key, c) && Turned(c, turn, check) && Separate(s, check)
    requires other != key && Line(t, other) == Line(s, other)
    ensures Offered(s, other, k, check, id) <==> Offered(t, other, k, check, id)
  {
    hide Offered;
    forall x | x in Line(s, other)
      ensures Live(s, other, x) == Live(t, other, x) && (Live(s, other, x) ==> s.taskMeta[x] == t.taskMeta[x])
    {}
    SameQueue(s, t, other, k, check, id);
  }

  /** And its own queue offers nothing, before and after. */
  lemma OwnQueueIdle(s: Sched, key: QueueKey, turn: nat, check: Check, c: Check)
    requires Turned(c, turn, check) && Scan(s, key, c).1.None?
    ensures Idle(Scan(s, key, c).0, key, turn, check)
  {
    hide Scan, OfferedAt, Dropping;
    var line, i, t := Line(s, key), FirstStanding(s, key, c, Line(s, key)), Scan(s, key, c).0;
    ScanServesFirst(s, key, c);
    if i < |line| {
      ScanDrops(s, key, c);
      StandingAt(s, key, c, line);
      HeadStands(s, t, key, turn, check, c, i);
    }
  }

  lemma HeadStands(s: Sched, t: Sched, key: QueueKey, turn: nat, check: Check, c: Check, i: nat)
    requires Turned(c, turn, check) && Dropping(s, t, key, c) && i < |Line(s, key)|
    requires Line(t, key) == Line(s, key)[i..] && !Stale(s, key, Line(s, key)[i])
    requires c(s.taskMeta[Line(s, key)[i]]) == Skip
    ensures Idle(t, key, turn, check)
  {
    assert Line(t, key)[0] == Line(s, key)[i] && Live(t, key, Line(t, key)[0]);
  }

  lemma ScanSameOffers(s: Sched, key: QueueKey, w: Snapshot, check: Check, c: Check)
    requires Turned(c, TurnAt(w, key), check) && Separate(s, check) && Scan(s, key, c).1.None?
    ensures SameOffers(s, Scan(s, key, c).0, w, check) && Separate(Scan(s, key, c).0, check)
  {
    hide Scan, Offered, Separate, Dropping, Turned, Stale;
    var t := Scan(s, key, c).0;
    ScanDrops(s, key, c);
    ScanServesFirst(s, key, c);
    ScanOffers(s, key, TurnAt(w, key), check, c);
    OwnQueueIdle(s, key, TurnAt(w, key), check, c);
    forall other, id
      ensures Offered(s, other, TurnAt(w, other), check, id) <==> Offered(t, other, TurnAt(w, other), check, id)
    {
      if other != key {
        OtherQueue(s, t, key, c, check, TurnAt(w, key), other, TurnAt(w, other), id);
      }
    }
    ScanShrinks(s, key, c);
    DroppingQueued(s, t, key, c);
    StillSeparate(s, t, check);
  }

  lemma DroppingQueued(s: Sched, t: Sched, key: QueueKey, c: Check)
    requires Dropping(s, t, key, c)
    ensures forall id :: id in t.queued ==> id in s.queued
  {}

  lemma StillSeparate(s: Sched, t: Sched, check: Check)
    requires Separate(s, check)
    requires forall k :: k in t.lines ==> k in s.lines && forall id :: id in t.lines[k] ==> id in s.lines[k]
    requires forall id :: id in t.taskMeta ==> id in s.taskMeta && t.taskMeta[id] == s.taskMeta[id]
    requires forall id :: id in t.queued ==> id in s.queued
    ensures Separate(t, check)
  {
    forall a, b, id | a != b && id in Line(t, a) && id in Line(t, b) && id in t.taskMeta && id in t.queued
      ensures check(t.taskMeta[id]) != Drop
    {
      assert id in Line(s, a) && id in Line(s, b);
    }
  }

  // ---- The order of queues -----------------------------------------------------------------

  /** Every queue offers later what it offered before, and tasks keep their metadata. */
  ghost predicate Later(s: Sched, t: Sched, w: Snapshot, check: Check) {
    && SameOffers(s, t, w, check) && Separate(t, check)
    && forall id :: id in t.taskMeta ==> id in s.taskMeta && t.taskMeta[id] == s.taskMeta[id]
  }

  lemma LaterSelf(s: Sched, w: Snapshot, check: Check)
    requires Separate(s, check)
    ensures Later(s, s, w, check)
  {}

  lemma LaterChain(s: Sched, t: Sched, u: Sched, w: Snapshot, check: Check)
    requires Later(s, t, w, check) && Later(t, u, w, check)
    ensures Later(s, u, w, check)
  {
    hide Offered;
  }

  lemma ScanLater(s: Sched, key: QueueKey, w: Snapshot, check: Check, c: Check)
    requires Turned(c, TurnAt(w, key), check) && Separate(s, check) && Scan(s, key, c).1.None?
    ensures Later(s, Scan(s, key, c).0, w, check)
  {
    hide Scan, Offered;
    ScanSameOffers(s, key, w, check, c);
    ScanShrinks(s, key, c);
  }

  /** Nothing on offer in the first `k` queues. */
  ghost predicate IdleUpTo(s: Sched, w: Snapshot, check: Check, order: seq<QueueKey>, k: nat)
    requires k <= |order|
  {
    forall j :: 0 <= j < k ==> Idle(s, order[j], TurnAt(w, order[j]), check)
  }

  /** The first queue with something on offer decides, and its offer is the answer; there is no
      answer only if there is no such queue. */
  ghost predicate Answers(s: Sched, w: Snapshot, check: Check, order: seq<QueueKey>, r: Option<SchedMeta>) {
    if r.None? then IdleUpTo(s, w, check, order, |order|)
    else
      exists k, id ::
        0 <= k < |order| && IdleUpTo(s, w, check, order, k) && Offered(s, order[k], TurnAt(w, order[k]), check, id)
        && id in s.taskMeta && s.taskMeta[id] == r.value
  }

  lemma IdleLater(s: Sched, t: Sched, w: Snapshot, check: Check, order: seq<QueueKey>, k: nat)
    requires Later(s, t, w, check) && k <= |order|
    ensures IdleUpTo(s, w, check, order, k) <==> IdleUpTo(t, w, check, order, k)
  {
    hide Offered;
  }

  lemma AnswersLater(s: Sched, t: Sched, w: Snapshot, check: Check, order: seq<QueueKey>, r: Option<SchedMeta>)
    requires Later(s, t, w, check) && Answers(t, w, check, order, r)
    ensures Answers(s, w, check, order, r)
  {
    hide Offered, IdleUpTo;
    forall k: nat | k <= |order| ensures IdleUpTo(s, w, check, order, k) <==> IdleUpTo(t, w, check, order, k) {
      IdleLater(s, t, w, check, order, k);
    }
  }

  /** More queues behind idle ones. */
  lemma AnswersBehind(
    s: Sched, w: Snapshot, check: Check, first: seq<QueueKey>, rest: seq<QueueKey>, r: Option<SchedMeta>)
    requires Answers(s, w, check, first, None) && Answers(s, w, check, rest, r)
    ensures Answers(s, w, check, first + rest, r)
  {
    hide Offered, Idle;
    var order := first + rest;
    forall k: nat | k <= |rest| && IdleUpTo(s, w, check, rest, k)
      ensures IdleUpTo(s, w, check, order, |first| + k)
    {
      forall j | 0 <= j < |first| + k ensures Idle(s, order[j], TurnAt(w, order[j]), check) {
        assert order[j] == if j < |first| then first[j] else rest[j - |first|];
      }
    }
    if r.Some? {
      var k, id :|
        0 <= k < |rest| && IdleUpTo(s, w, check, rest, k) && Offered(s, rest[k], TurnAt(w, rest[k]), check, id)
        && id in s.taskMeta && s.taskMeta[id] == r.value;
      assert order[|first| + k] == rest[k];
    }
  }

  lemma AnswersBefore(
    s: Sched, w: Snapshot, check: Check, first: seq<QueueKey>, rest: seq<QueueKey>, r: Option<SchedMeta>)
    requires Answers(s, w, check, first, r) && r.Some?
    ensures Answers(s, w, check, first + rest, r)
  {
    hide Offered, Idle;
    var order := first + rest;
    var k, id :|
      0 <= k < |first| && IdleUpTo(s, w, check, first, k) && Offered(s, first[k], TurnAt(w, first[k]), check, id)
      && id in s.taskMeta && s.taskMeta[id] == r.value;
    forall j | 0 <= j < k ensures Idle(s, order[j], TurnAt(w, order[j]), check) {
      assert order[j] == first[j];
    }
    assert order[k] == first[k] && IdleUpTo(s, w, check, order, k);
  }

  /** One scan is an answer over one queue. */
  lemma ScanAnswers(s: Sched, key: QueueKey, w: Snapshot, check: Check, c: Check)
    requires Turned(c, TurnAt(w, key), check) && Separate(s, check)
    ensures var r := Scan(s, key, c);
            Answers(s, w, check, [key], r.1) && (r.1.None? ==> Later(s, r.0, w, check))
  {
    hide Scan, Offered, Turned, Later;
    ScanOffers(s, key, TurnAt(w, key), check, c);
    if Scan(s, key, c).1.None? {
      ScanLater(s, key, w, check, c);
    } else {
      assert IdleUpTo(s, w, check, [key], 0) && [key][0] == key;
    }
  }

  /** A scan, and if it hands nothing out what follows. */
  lemma ThenAnswers(
    s: Sched, t: Sched, w: Snapshot, check: Check, first: seq<QueueKey>, one: Option<SchedMeta>,
    rest: seq<QueueKey>, r: Option<SchedMeta>)
    requires Answers(s, w, check, first, one) && (one.Some? ==> r == one)
    requires one.None? ==> Later(s, t, w, check) && Answers(t, w, check, rest, r)
    ensures Answers(s, w, check, first + rest, r)
  {
    hide Answers, Later;
    if one.Some? {
      AnswersBefore(s, w, check, first, rest, r);
    } else {
      AnswersLater(s, t, w, check, rest, r);
      AnswersBehind(s, w, check, first, rest, r);
    }
  }

  function Mailboxes(actors: seq<string>): seq<QueueKey> {
    seq(|actors|, i requires 0 <= i < |actors| => ActorQueue(actors[i]))
  }

  function Models(keys: seq<ModelKey>): seq<QueueKey> {
    seq(|keys|, i requires 0 <= i < |keys| => ModelQueue(keys[i]))
  }

  lemma NoneAnswers(s: Sched, w: Snapshot, check: Check)
    ensures Answers(s, w, check, [], None)
  {}

  lemma {:induction false} ActorsAnswer(s: Sched, w: Snapshot, actors: seq<string>, check: Check)
    requires Separate(s, check)
    ensures var r := ScanActors(s, actors, w.nextSeq, check);
            Answers(s, w, check, Mailboxes(actors), r.1) && (r.1.None? ==> Later(s, r.0, w, check))
    decreases |actors|
  {
    hide Scan, Answers, Separate, SameOffers, OnTurn;
    if actors == [] {
      assert Mailboxes(actors) == [];
      NoneAnswers(s, w, check);
      LaterSelf(s, w, check);
    } else {
      var key := ActorQueue(actors[0]);
      var c := OnTurn(NextSeq(w.nextSeq, actors[0]), check);
      TurnedActor(w, actors[0], check);
      ScanAnswers(s, key, w, check, c);
      var r := Scan(s, key, c);
      var rest := ScanActors(r.0, actors[1..], w.nextSeq, check);
      if r.1.None? {
        ActorsAnswer(r.0, w, actors[1..], check);
        if rest.1.None? {
          LaterChain(s, r.0, rest.0, w, check);
        }
      }
      assert Mailboxes(actors) == [key] + Mailboxes(actors[1..]);
      ThenAnswers(s, r.0, w, check, [key], r.1, Mailboxes(actors[1..]), if r.1.Some? then r.1 else rest.1);
    }
  }

  lemma TurnedActor(w: Snapshot, actor: string, check: Check)
    ensures Turned(OnTurn(NextSeq(w.nextSeq, actor), check), TurnAt(w, ActorQueue(actor)), check)
  {}

  lemma TurnedPlain(w: Snapshot, key: QueueKey, check: Check)
    requires !key.ActorQueue?
    ensures Turned(check, TurnAt(w, key), check)
  {}

  lemma {:induction false} ModelsAnswer(s: Sched, w: Snapshot, keys: seq<ModelKey>, check: Check)
    requires Separate(s, check)
    ensures var r := ScanModels(s, keys, check);
            Answers(s, w, check, Models(keys), r.1) && (r.1.None? ==> Later(s, r.0, w, check))
    decreases |keys|
  {
    hide Scan, Answers, Separate, SameOffers;
    if keys == [] {
      assert Models(keys) == [];
      NoneAnswers(s, w, check);
      LaterSelf(s, w, check);
    } else {
      var key := ModelQueue(keys[0]);
      TurnedPlain(w, key, check);
      ScanAnswers(s, key, w, check, check);
      var r := Scan(s, key, check);
      var rest := ScanModels(r.0, keys[1..], check);
      if r.1.None? {
        ModelsAnswer(r.0, w, keys[1..], check);
        if rest.1.None? {
          LaterChain(s, r.0, rest.0, w, check);
        }
      }
      assert Models(keys) == [key] + Models(keys[1..]);
      ThenAnswers(s, r.0, w, check, [key], r.1, Models(keys[1..]), if r.1.Some? then r.1 else rest.1);
    }
  }

  /** Pruning stale heads changes no offer. */
  lemma {:induction false} PruneLater(s: Sched, w: Snapshot, check: Check, key: QueueKey)
    requires Separate(s, check)
    ensures Later(s, Pruned(s, key), w, check)
    decreases |Line(s, key)|
  {
    hide Separate, SameOffers, Stale;
    if Line(s, key) == [] || !Stale(s, key, Line(s, key)[0]) {
      LaterSelf(s, w, check);
    } else {
      var t := WithLine(s, key, Line(s, key)[1..]);
      PopLater(s, w, check, key);
      PruneLater(t, w, check, key);
      LaterChain(s, t, Pruned(t, key), w, check);
    }
  }

  lemma PopLater(s: Sched, w: Snapshot, check: Check, key: QueueKey)
    requires Separate(s, check) && Line(s, key) != [] && Stale(s, key, Line(s, key)[0])
    ensures Later(s, WithLine(s, key, Line(s, key)[1..]), w, check)
  {
    hide Offered, Separate;
    var t := WithLine(s, key, Line(s, key)[1..]);
    forall other, id
      ensures Offered(s, other, TurnAt(w, other), check, id) <==> Offered(t, other, TurnAt(w, other), check, id)
    {
      if other == key {
        PopOffers(s, key, TurnAt(w, key), check, id);
      } else {
        SameQueue(s, t, other, TurnAt(w, other), check, id);
      }
    }
    PopSeparate(s, check, key);
  }

  lemma PopSeparate(s: Sched, check: Check, key: QueueKey)
    requires Separate(s, check) && Line(s, key) != []
    ensures Separate(WithLine(s, key, Line(s, key)[1..]), check)
  {
    var t := WithLine(s, key, Line(s, key)[1..]);
    forall a, b, id | a != b && id in Line(t, a) && id in Line(t, b) && id in t.taskMeta && id in t.queued
      ensures check(t.taskMeta[id]) != Drop
    {
      assert id in Line(s, a) && id in Line(s, b);
    }
  }

  lemma PopOffers(s: Sched, key: QueueKey, turn: nat, check: Check, id: string)
    requires Line(s, key) != [] && Stale(s, key, Line(s, key)[0])
    ensures Offered(s, key, turn, check, id)
            <==> Offered(WithLine(s, key, Line(s, key)[1..]), key, turn, check, id)
  {
    hide OnItsTurn;
    var t := WithLine(s, key, Line(s, key)[1..]);
    forall i | 0 < i < |Line(s, key)|
      ensures OfferedAt(s, key, turn, check, i) <==> OfferedAt(t, key, turn, check, i - 1)
    {
      PopEntry(s, key, turn, check, i);
    }
    if Offered(s, key, turn, check, id) {
      var i :| 0 <= i < |Line(s, key)| && Line(s, key)[i] == id && OfferedAt(s, key, turn, check, i);
      assert Line(t, key)[i - 1] == id && OfferedAt(t, key, turn, check, i - 1);
    }
    if Offered(t, key, turn, check, id) {
      var i :| 0 <= i < |Line(t, key)| && Line(t, key)[i] == id && OfferedAt(t, key, turn, check, i);
      assert Line(s, key)[i + 1] == id && OfferedAt(s, key, turn, check, i + 1);
    }
  }

  lemma PopEntry(s: Sched, key: QueueKey, turn: nat, check: Check, i: nat)
    requires Line(s, key) != [] && Stale(s, key, Line(s, key)[0]) && 0 < i < |Line(s, key)|
    ensures OfferedAt(s, key, turn, check, i)
            <==> OfferedAt(WithLine(s, key, Line(s, key)[1..]), key, turn, check, i - 1)
  {
    hide OnItsTurn;
    var line, t := Line(s, key), WithLine(s, key, Line(s, key)[1..]);
    assert forall j :: 0 <= j < |line| - 1 ==> Line(t, key)[j] == line[j + 1];
    if OfferedAt(t, key, turn, check, i - 1) {
      forall j | 0 <= j < i && Live(s, key, line[j])
        ensures OnItsTurn(s.taskMeta[line[j]], turn) && check(s.taskMeta[line[j]]) == Drop
      {
        assert j > 0 && Line(t, key)[j - 1] == line[j];
      }
    }
  }

  lemma {:induction false} PruneAllLater(s: Sched, w: Snapshot, check: Check, keys: seq<ModelKey>)
    requires Separate(s, check)
    ensures Later(s, PrunedAll(s, keys), w, check)
    decreases |keys|
  {
    hide Separate, SameOffers, Pruned;
    if keys == [] {
      LaterSelf(s, w, check);
    } else {
      var t := Pruned(s, ModelQueue(keys[0]));
      PruneLater(s, w, check, ModelQueue(keys[0]));
      PruneAllLater(t, w, check, keys[1..]);
      LaterChain(s, t, PrunedAll(t, keys[1..]), w, check);
    }
  }

  /** The source's order: the worker's own queue, its actors' mailboxes, the ranked models,
      general work. */
  function Order(w: Snapshot, ranked: seq<ModelKey>): seq<QueueKey> {
    [TargetQueue(w.worker)] + (Mailboxes(w.actors) + (Models(ranked) + [GeneralQueue]))
  }

  /** Assign serves the first queue in this order that has something on offer, and answers
      with nothing only if none has - before the call, and then also after it. */
  lemma AssignAnswers(s: Sched, w: Snapshot, inspected: seq<ModelKey>, ranked: seq<ModelKey>, check: Check)
    requires w.worker != "" && Separate(s, check)
    ensures var r := Assigned(s, w, inspected, ranked, check);
            Answers(s, w, check, Order(w, ranked), r.1) && (r.1.None? ==> Later(s, r.0, w, check))
  {
    hide Scan, ScanActors, ScanModels, PrunedAll, Answers, Separate, SameOffers, Mailboxes, Models;
    var key := TargetQueue(w.worker);
    var r := Assigned(s, w, inspected, ranked, check);
    var own := Scan(s, key, check);
    TurnedPlain(w, key, check);
    ScanAnswers(s, key, w, check, check);
    if own.1.None? {
      MailboxesOn(own.0, w, inspected, ranked, check);
      if r.1.None? {
        LaterChain(s, own.0, r.0, w, check);
      }
    }
    ThenAnswers(s, own.0, w, check, [key], own.1, Mailboxes(w.actors) + (Models(ranked) + [GeneralQueue]), r.1);
  }

  /** From the mailboxes on. */
  lemma MailboxesOn(s: Sched, w: Snapshot, inspected: seq<ModelKey>, ranked: seq<ModelKey>, check: Check)
    requires Separate(s, check)
    ensures var actors := ScanActors(s, w.actors, w.nextSeq, check);
            var models := ScanModels(PrunedAll(actors.0, inspected), ranked, check);
            var r := if actors.1.Some? then actors else if models.1.Some? then models
                     else Scan(models.0, GeneralQueue, check);
            Answers(s, w, check, Mailboxes(w.actors) + (Models(ranked) + [GeneralQueue]), r.1)
            && (r.1.None? ==> Later(s, r.0, w, check))
  {
    hide Scan, ScanActors, ScanModels, PrunedAll, Answers, Separate, SameOffers, Mailboxes, Models;
    var actors := ScanActors(s, w.actors, w.nextSeq, check);
    var pruned := PrunedAll(actors.0, inspected);
    var models := ScanModels(pruned, ranked, check);
    var last := Scan(models.0, GeneralQueue, check);
    var rest := if models.1.Some? then models else last;
    ActorsAnswer(s, w, w.actors, check);
    if actors.1.None? {
      PruneAllLater(actors.0, w, check, inspected);
      LaterChain(s, actors.0, pruned, w, check);
      ModelsOn(pruned, w, ranked, check);
      if rest.1.None? {
        LaterChain(s, pruned, rest.0, w, check);
      }
    }
    ThenAnswers(s, pruned, w, check, Mailboxes(w.actors), actors.1, Models(ranked) + [GeneralQueue],
                if actors.1.Some? then actors.1 else rest.1);
  }

  /** From the models on. */
  lemma ModelsOn(s: Sched, w: Snapshot, ranked: seq<ModelKey>, check: Check)
    requires Separate(s, check)
    ensures var models := ScanModels(s, ranked, check);
            var r := if models.1.Some? then models else Scan(models.0, GeneralQueue, check);
            Answers(s, w, check, Models(ranked) + [GeneralQueue], r.1) && (r.1.None? ==> Later(s, r.0, w, check))
  {
    hide Scan, ScanModels, Answers, Separate, SameOffers, Models;
    var models := ScanModels(s, ranked, check);
    var last := Scan(models.0, GeneralQueue, check);
    ModelsAnswer(s, w, ranked, check);
    if models.1.None? {
      TurnedPlain(w, GeneralQueue, check);
      ScanAnswers(models.0, GeneralQueue, w, check, check);
      if last.1.None? {
        LaterChain(s, models.0, last.0, w, check);
      }
    }
    ThenAnswers(s, models.0, w, check, Models(ranked), models.1, [GeneralQueue],
                if models.1.Some? then models.1 else last.1);
  }

  /** In every run with fixed routing keys. */
  lemma TraceAnswers(
    states: seq<Sched>, ops: seq<Op>, results: seq<Option<SchedMeta>>, route: string -> QueueKey, i: nat)
    requires Trace(states, ops, results) && i < |ops| && ops[i].AssignTo? && ops[i].w.worker != ""
    requires forall k :: 0 <= k < |ops| && (ops[k].Enqueue? || ops[k].ReturnFront?) ==>
               ops[k].meta.Route() == route(ops[k].meta.taskID)
    ensures Answers(states[i], ops[i].w, ops[i].check, Order(ops[i].w, ops[i].ranked), results[i])
  {
    hide Answers, Assigned, Routed;
    TraceRoutes(states, ops, results, route, i);
    RoutedSeparate(states[i], route, ops[i].check);
    AssignAnswers(states[i], ops[i].w, ops[i].inspected, ops[i].ranked, ops[i].check);
    assert StepsTo(states[i], ops[i], results[i], states[i + 1]);
  }

  // ---- First come, first served over runs ------------------------------------------------------

  predicate Gone(t: Sched, key: QueueKey, id: string) {
    id !in t.queued || t.queued[id] != key.Kind()
  }

  function Cut(s: Sched, t: Sched, key: QueueKey): int {
    |Line(s, key)| - |Line(t, key)|
  }

  /** A line only loses entries at its front, and only those whose task no longer waits there. */
  predicate TrimAt(s: Sched, t: Sched, key: QueueKey) {
    && Cut(s, t, key) >= 0 && Line(t, key) == Line(s, key)[Cut(s, t, key)..]
    && forall j :: 0 <= j < Cut(s, t, key) ==> Gone(t, key, Line(s, key)[j])
  }

  /** What handing out work does to the lines: what is handed out came off the front of one. */
  ghost predicate Trims(s: Sched, t: Sched, r: Option<SchedMeta>) {
    && (forall id :: id in t.queued ==> id in s.queued && t.queued[id] == s.queued[id])
    && (forall key :: TrimAt(s, t, key))
    && (r.Some? ==> exists key :: TookFrom(s, t, key, r.value.taskID))
  }

  predicate TookFrom(s: Sched, t: Sched, key: QueueKey, id: string) {
    exists j :: 0 <= j < Cut(s, t, key) && j < |Line(s, key)| && Line(s, key)[j] == id
  }

  lemma TrimChain(s: Sched, t: Sched, u: Sched, key: QueueKey)
    requires TrimAt(s, t, key) && TrimAt(t, u, key)
    requires forall id :: id in u.queued ==> id in t.queued && u.queued[id] == t.queued[id]
    ensures TrimAt(s, u, key)
  {
    hide Gone, Line;
    var line, n, m := Line(s, key), Cut(s, t, key), Cut(t, u, key);
    assert line[n..][m..] == line[n + m..];
    forall j | 0 <= j < n + m ensures Gone(u, key, line[j]) {
      if j < n {
        GoneLater(t, u, key, line[j]);
      } else {
        assert line[j] == Line(t, key)[j - n];
      }
    }
  }

  lemma GoneLater(t: Sched, u: Sched, key: QueueKey, id: string)
    requires Gone(t, key, id) && forall x :: x in u.queued ==> x in t.queued && u.queued[x] == t.queued[x]
    ensures Gone(u, key, id)
  {}

  lemma TrimsChain(s: Sched, t: Sched, u: Sched, r: Option<SchedMeta>)
    requires Trims(s, t, None) && Trims(t, u, r)
    ensures Trims(s, u, r)
  {
    hide TrimAt;
    forall key ensures TrimAt(s, u, key) {
      TrimChain(s, t, u, key);
    }
    if r.Some? {
      var key :| TookFrom(t, u, key, r.value.taskID);
      TookEarlier(s, t, u, key, r.value.taskID);
    }
  }

  lemma TookEarlier(s: Sched, t: Sched, u: Sched, key: QueueKey, id: string)
    requires TrimAt(s, t, key) && TookFrom(t, u, key, id)
    ensures TookFrom(s, u, key, id)
  {
    var j :| 0 <= j < Cut(t, u, key) && j < |Line(t, key)| && Line(t, key)[j] == id;
    assert Line(s, key)[Cut(s, t, key) + j] == id;
  }

  lemma TrimsSelf(s: Sched)
    ensures Trims(s, s, None)
  {}

  lemma TrimsPop(s: Sched, home: map<string, QueueKey>, key: QueueKey)
    requires Conserved(s, home) && Line(s, key) != [] && Stale(s, key, Line(s, key)[0])
    ensures Trims(s, WithLine(s, key, Line(s, key)[1..]), None)
  {
    hide Conserved, Stale;
    StaleGone(s, home, key);
  }

  lemma StaleGone(s: Sched, home: map<string, QueueKey>, key: QueueKey)
    requires Conserved(s, home) && Line(s, key) != [] && Stale(s, key, Line(s, key)[0])
    ensures Gone(s, key, Line(s, key)[0])
  {
    var id := Line(s, key)[0];
    assert id in s.queued ==> Homed(s, home, id);
  }

  lemma TrimsTake(s: Sched, key: QueueKey, dropped: bool)
    requires Line(s, key) != [] && !Stale(s, key, Line(s, key)[0])
    ensures var id := Line(s, key)[0];
            var popped := WithLine(s, key, Line(s, key)[1..]);
            var t := popped.(queued := s.queued - {id}, taskMeta := if dropped then s.taskMeta - {id} else s.taskMeta);
            && Trims(s, Cleanup(t, key, s.taskMeta[id]), None)
            && TookFrom(s, Cleanup(t, key, s.taskMeta[id]), key, id)
  {
    hide Cleanup;
    var id, popped := Line(s, key)[0], WithLine(s, key, Line(s, key)[1..]);
    var t := popped.(queued := s.queued - {id}, taskMeta := if dropped then s.taskMeta - {id} else s.taskMeta);
    CleanupLines(t, key, s.taskMeta[id]);
    CleanupOthers(t, key, s.taskMeta[id]);
    assert Line(s, key)[0] == id;
  }

  lemma {:induction false} ScanTrims(s: Sched, home: map<string, QueueKey>, key: QueueKey, check: Check)
    requires Conserved(s, home)
    ensures var r := Scan(s, key, check); Trims(s, r.0, r.1)
    decreases |Line(s, key)|
  {
    hide Conserved, Trims, Stale, Cleanup;
    var line := Line(s, key);
    if line == [] {
      TrimsSelf(s);
    } else {
      var popped := WithLine(s, key, line[1..]);
      if Stale(s, key, line[0]) {
        PopConserves(s, home, key);
        TrimsPop(s, home, key);
        ScanTrims(popped, home, key, check);
        TrimsChain(s, popped, Scan(popped, key, check).0, Scan(popped, key, check).1);
      } else {
        LiveFront(s, key);
        MetaNamed(s, home, line[0]);
        var meta := s.taskMeta[line[0]];
        TakeConserves(s, home, key, check(meta) == Drop);
        TrimsTake(s, key, check(meta) == Drop);
        match check(meta)
        case Skip => TrimsSelf(s);
        case Assign => TrimsTook(s, Scan(s, key, check).0, key, meta);
        case Drop =>
          var d := popped.(queued := s.queued - {line[0]}, taskMeta := s.taskMeta - {line[0]});
          var t := Cleanup(d, key, meta);
          CleanupLines(d, key, meta);
          ScanTrims(t, home, key, check);
          TrimsChain(s, t, Scan(t, key, check).0, Scan(t, key, check).1);
      }
    }
  }

  lemma TrimsTook(s: Sched, t: Sched, key: QueueKey, meta: SchedMeta)
    requires Trims(s, t, None) && TookFrom(s, t, key, meta.taskID)
    ensures Trims(s, t, Some(meta))
  {
    hide TrimAt, TookFrom;
  }

  lemma {:induction false} ActorsTrim(
    s: Sched, home: map<string, QueueKey>, actors: seq<string>, nextSeq: map<string, nat>, check: Check)
    requires Conserved(s, home)
    ensures var r := ScanActors(s, actors, nextSeq, check); Trims(s, r.0, r.1)
    decreases |actors|
  {
    hide Conserved, Trims, Scan, OnTurn;
    if actors == [] {
      TrimsSelf(s);
    } else {
      var c := OnTurn(NextSeq(nextSeq, actors[0]), check);
      var r := Scan(s, ActorQueue(actors[0]), c);
      ScanTrims(s, home, ActorQueue(actors[0]), c);
      ScanConserves(s, home, ActorQueue(actors[0]), c);
      if r.1.None? {
        ActorsTrim(r.0, home, actors[1..], nextSeq, check);
        var rest := ScanActors(r.0, actors[1..], nextSeq, check);
        TrimsChain(s, r.0, rest.0, rest.1);
      }
    }
  }

  lemma {:induction false} PruneTrims(s: Sched, home: map<string, QueueKey>, key: QueueKey)
    requires Conserved(s, home)
    ensures Trims(s, Pruned(s, key), None) && Conserved(Pruned(s, key), home)
    decreases |Line(s, key)|
  {
    hide Conserved, Trims, Stale;
    if Line(s, key) == [] || !Stale(s, key, Line(s, key)[0]) {
      TrimsSelf(s);
    } else {
      var t := WithLine(s, key, Line(s, key)[1..]);
      PopConserves(s, home, key);
      TrimsPop(s, home, key);
      PruneTrims(t, home, key);
      TrimsChain(s, t, Pruned(t, key), None);
    }
  }

  lemma {:induction false} PruneAllTrims(s: Sched, home: map<string, QueueKey>, keys: seq<ModelKey>)
    requires Conserved(s, home)
    ensures Trims(s, PrunedAll(s, keys), None) && Conserved(PrunedAll(s, keys), home)
    decreases |keys|
  {
    hide Conserved, Trims, Pruned;
    if keys == [] {
      TrimsSelf(s);
    } else {
      var t := Pruned(s, ModelQueue(keys[0]));
      PruneTrims(s, home, ModelQueue(keys[0]));
      PruneAllTrims(t, home, keys[1..]);
      TrimsChain(s, t, PrunedAll(t, keys[1..]), None);
    }
  }

  lemma {:induction false} ModelsTrim(s: Sched, home: map<string, QueueKey>, keys: seq<ModelKey>, check: Check)
    requires Conserved(s, home)
    ensures var r := ScanModels(s, keys, check); Trims(s, r.0, r.1)
    decreases |keys|
  {
    hide Conserved, Trims, Scan;
    if keys == [] {
      TrimsSelf(s);
    } else {
      var r := Scan(s, ModelQueue(keys[0]), check);
      ScanTrims(s, home, ModelQueue(keys[0]), check);
      ScanConserves(s, home, ModelQueue(keys[0]), check);
      if r.1.None? {
        ModelsTrim(r.0, home, keys[1..], check);
        var rest := ScanModels(r.0, keys[1..], check);
        TrimsChain(s, r.0, rest.0, rest.1);
      }
    }
  }

  lemma AssignTrims(
    s: Sched, home: map<string, QueueKey>, w: Snapshot, inspected: seq<ModelKey>, ranked: seq<ModelKey>, check: Check)
    requires Conserved(s, home)
    ensures var r := Assigned(s, w, inspected, ranked, check); Trims(s, r.0, r.1)
  {
    hide Conserved, Trims, Scan, ScanActors, ScanModels, PrunedAll;
    if w.worker == "" {
      TrimsSelf(s);
    } else {
      var own := Scan(s, TargetQueue(w.worker), check);
      ScanTrims(s, home, TargetQueue(w.worker), check);
      ScanConserves(s, home, TargetQueue(w.worker), check);
      if own.1.None? {
        var actors := ScanActors(own.0, w.actors, w.nextSeq, check);
        ActorsTrim(own.0, home, w.actors, w.nextSeq, check);
        ActorsConserve(own.0, home, w.actors, w.nextSeq, check);
        TrimsChain(s, own.0, actors.0, actors.1);
        if actors.1.None? {
          LaterTrims(s, home, actors.0, inspected, ranked, check);
        }
      }
    }
  }

  lemma LaterTrims(
    s: Sched, home: map<string, QueueKey>, t: Sched, inspected: seq<ModelKey>, ranked: seq<ModelKey>, check: Check)
    requires Conserved(t, home) && Trims(s, t, None)
    ensures var models := ScanModels(PrunedAll(t, inspected), ranked, check);
            var r := if models.1.Some? then models else Scan(models.0, GeneralQueue, check);
            Trims(s, r.0, r.1)
  {
    hide Conserved, Trims, Scan, ScanModels, PrunedAll;
    var pruned := PrunedAll(t, inspected);
    PruneAllTrims(t, home, inspected);
    TrimsChain(s, t, pruned, None);
    var models := ScanModels(pruned, ranked, check);
    ModelsTrim(pruned, home, ranked, check);
    ModelsConserve(pruned, home, ranked, check);
    TrimsChain(s, pruned, models.0, models.1);
    if models.1.None? {
      var last := Scan(models.0, GeneralQueue, check);
      ScanTrims(models.0, home, GeneralQueue, check);
      TrimsChain(s, models.0, last.0, last.1);
    }
  }

  /** `x` stands in a line before every entry of `y`. */
  predicate Ahead(line: seq<string>, x: string, y: string) {
    exists i :: 0 <= i < |line| && line[i] == x && y !in line[..i + 1]
  }

  /** Handing out work keeps the order of those who stay, and never serves `y` first. */
  lemma AssignKeepsOrder(
    s: Sched, home: map<string, QueueKey>, route: string -> QueueKey, t: Sched, r: Option<SchedMeta>,
    x: string, y: string)
    requires Conserved(s, home) && Routed(s, route) && Trims(s, t, r)
    requires x in s.queued && x in t.queued && route(x) == route(y) && Ahead(Line(s, route(x)), x, y)
    ensures Ahead(Line(t, route(x)), x, y)
    ensures r.Some? ==> r.value.taskID != y
  {
    hide Conserved, Routed, Ahead;
    OwnQueue(s, home, route, x);
    var key := route(x);
    assert TrimAt(s, t, key) && !Gone(t, key, x);
    AheadTrimmed(s, t, key, x, y);
    if r.Some? && r.value.taskID == y {
      var from :| TookFrom(s, t, from, y);
      InOwnLine(s, route, from, y, Cut(s, t, from));
      NotTaken(s, t, key, x, y);
      assert false;
    }
  }

  lemma InOwnLine(s: Sched, route: string -> QueueKey, from: QueueKey, y: string, n: int)
    requires Routed(s, route) && exists j :: 0 <= j < n && j < |Line(s, from)| && Line(s, from)[j] == y
    ensures route(y) == from
  {}

  lemma AheadTrimmed(s: Sched, t: Sched, key: QueueKey, x: string, y: string)
    requires TrimAt(s, t, key) && Ahead(Line(s, key), x, y) && !Gone(t, key, x)
    ensures Ahead(Line(t, key), x, y)
  {
    var line, n := Line(s, key), Cut(s, t, key);
    var i :| 0 <= i < |line| && line[i] == x && y !in line[..i + 1];
    assert i >= n;
    assert Line(t, key)[i - n] == x;
    assert Line(t, key)[..i - n + 1] == line[n..i + 1];
    assert forall j :: n <= j < i + 1 ==> line[j] == line[..i + 1][j];
  }

  lemma NotTaken(s: Sched, t: Sched, key: QueueKey, x: string, y: string)
    requires TrimAt(s, t, key) && Ahead(Line(s, key), x, y) && !Gone(t, key, x)
    ensures !TookFrom(s, t, key, y)
  {
    var line, n := Line(s, key), Cut(s, t, key);
    var i :| 0 <= i < |line| && line[i] == x && y !in line[..i + 1];
    forall j | 0 <= j < n ensures line[j] != y {
      assert j < i;
      assert line[j] == line[..i + 1][j];
    }
  }

  lemma AheadGrows(line: seq<string>, z: string, x: string, y: string)
    requires Ahead(line, x, y)
    ensures Ahead(line + [z], x, y) && (z != y ==> Ahead([z] + line, x, y))
  {
    var i :| 0 <= i < |line| && line[i] == x && y !in line[..i + 1];
    assert (line + [z])[i] == x && (line + [z])[..i + 1] == line[..i + 1];
    assert ([z] + line)[i + 1] == x && ([z] + line)[..i + 2] == [z] + line[..i + 1];
  }

  lemma StepKeepsOrder(
    s: Sched, home: map<string, QueueKey>, route: string -> QueueKey, op: Op, r: Option<SchedMeta>, t: Sched,
    x: string, y: string)
    requires Conserved(s, home) && Routed(s, route) && StepsTo(s, op, r, t)
    requires x in s.queued && x in t.queued && route(x) == route(y) && Ahead(Line(s, route(x)), x, y)
    requires !(op.ReturnFront? && op.meta.taskID == y)
    ensures Ahead(Line(t, route(x)), x, y)
    ensures r.Some? ==> r.value.taskID != y
  {
    hide Assigned, Conserved, Routed, Ahead, Expired;
    match op
    case AssignTo(w, inspected, ranked, check) =>
      AssignTrims(s, home, w, inspected, ranked, check);
      AssignKeepsOrder(s, home, route, t, r, x, y);
    case Enqueue(meta) => AheadGrows(Line(s, route(x)), meta.taskID, x, y);
    case ReturnFront(meta) => AheadGrows(Line(s, route(x)), meta.taskID, x, y);
    case Forget(_) =>
    case TrackRunning(_, _, _) =>
    case PopExpired(now) =>
      var expired :| Expired(s, now, expired, t);
      ExpiryShape(s, now, expired, t);
  }

  /** In every run with fixed routing keys: who stands behind a waiting task of the same queue
      is not served before it, unless put back to the front. */
  lemma {:induction false} FirstComeFirstServed(
    states: seq<Sched>, ops: seq<Op>, results: seq<Option<SchedMeta>>, route: string -> QueueKey,
    i: nat, j: nat, x: string, y: string)
    requires Trace(states, ops, results) && i <= j < |ops|
    requires forall k :: 0 <= k < |ops| && (ops[k].Enqueue? || ops[k].ReturnFront?) ==>
               ops[k].meta.Route() == route(ops[k].meta.taskID)
    requires route(x) == route(y) && Ahead(Line(states[i], route(x)), x, y)
    requires forall k :: i <= k <= j + 1 ==> x in states[k].queued
    requires forall k :: i <= k <= j ==> !(ops[k].ReturnFront? && ops[k].meta.taskID == y)
    ensures Ahead(Line(states[j + 1], route(x)), x, y)
    ensures results[j].Some? ==> results[j].value.taskID != y
    decreases j
  {
    hide StepsTo, Conserved, Routed, Ahead;
    if i < j {
      FirstComeFirstServed(states, ops, results, route, i, j - 1, x, y);
    }
    TraceConserves(states, ops, results, j);
    TraceRoutes(states, ops, results, route, j);
    StepKeepsOrder(states[j], HomeAt(states, ops, j), route, ops[j], results[j], states[j + 1], x, y);
  }

  /** A task put back to the front is what its queue offers next. */
  lemma ReturnedFirst(s: Sched, meta: SchedMeta, turn: nat, check: Check)
    requires meta.taskID != "" && meta.taskID !in s.queued && OnItsTurn(meta, turn) && check(meta) == Assign
    ensures Offered(Returned(s, meta), meta.Route(), turn, check, meta.taskID)
    ensures Returned(s, meta).taskMeta == s.taskMeta[meta.taskID := meta]
  {
    assert OfferedAt(Returned(s, meta), meta.Route(), turn, check, 0);
  }

  /** A new task is offered as soon as nothing in its queue still waits. */
  lemma EnqueuedAlone(s: Sched, meta: SchedMeta, turn: nat, check: Check)
    requires meta.taskID != "" && meta.taskID !in s.queued && OnItsTurn(meta, turn) && check(meta) == Assign
    requires forall id :: id in Line(s, meta.Route()) ==> id !in s.queued && id != meta.taskID
    ensures Offered(Enqueued(s, meta), meta.Route(), turn, check, meta.taskID)
    ensures Enqueued(s, meta).taskMeta == s.taskMeta[meta.taskID := meta]
  {
    var t, line := Enqueued(s, meta), Line(s, meta.Route());
    assert Line(t, meta.Route()) == line + [meta.taskID];
    forall j | 0 <= j < |line| ensures !Live(t, meta.Route(), Line(t, meta.Route())[j]) {
      assert line[j] in line;
    }
    assert OfferedAt(t, meta.Route(), turn, check, |line|);
  }

  /** And so stands everything enqueued later that has no stale entry there. */
  lemma EnqueuedBehind(s: Sched, home: map<string, QueueKey>, route: string -> QueueKey, meta: SchedMeta, x: string)
    requires Conserved(s, home) && Routed(s, route) && x in s.queued && route(x) == meta.Route() == route(meta.taskID)
    requires meta.taskID != "" && meta.taskID !in s.queued && meta.taskID !in Line(s, meta.Route())
    ensures Ahead(Line(Enqueued(s, meta), route(x)), x, meta.taskID)
  {
    OwnQueue(s, home, route, x);
    var line := Line(s, route(x));
    var i :| 0 <= i < |line| && line[i] == x;
    assert (line + [meta.taskID])[i] == x && (line + [meta.taskID])[..i + 1] == line[..i + 1];
  }

  // ---- Upkeep of queues ------------------------------------------------------------------------

  /** frontMetaLocked leaves a live task in front, or nothing; it drops stale entries only. */
  lemma {:induction false} PrunedFront(s: Sched, key: QueueKey) returns (n: nat)
    ensures n <= |Line(s, key)| && Line(Pruned(s, key), key) == Line(s, key)[n..]
    ensures forall j :: 0 <= j < n ==> Stale(s, key, Line(s, key)[j])
    ensures n < |Line(s, key)| ==> !Stale(s, key, Line(s, key)[n])
    ensures Pruned(s, key) == if n == 0 then s else WithLine(s, key, Line(s, key)[n..])
    decreases |Line(s, key)|
  {
    hide Stale, WithLine;
    var line := Line(s, key);
    if line == [] || !Stale(s, key, line[0]) {
      n := 0;
    } else {
      var t := WithLine(s, key, line[1..]);
      PopKeeps(s, key);
      var m := PrunedFront(t, key);
      n := m + 1;
      assert line[1..][m..] == line[n..];
      forall j | 0 <= j < n ensures Stale(s, key, line[j]) {
        assert j > 0 ==> Line(t, key)[j - 1] == line[j];
      }
    }
  }

  lemma PopKeeps(s: Sched, key: QueueKey)
    requires Line(s, key) != []
    ensures var t := WithLine(s, key, Line(s, key)[1..]);
            && Line(t, key) == Line(s, key)[1..]
            && (forall id :: Stale(t, key, id) == Stale(s, key, id))
            && forall rest :: WithLine(t, key, rest) == WithLine(s, key, rest)
  {}

  /** The queue a task was the last entry of goes with it, unless it is the general one. */
  lemma EmptyQueueGoes(s: Sched, key: QueueKey, meta: SchedMeta)
    requires meta.Route() == key && Line(s, key) == []
    ensures key in Cleanup(s, key, meta).lines <==> key.GeneralQueue? && key in s.lines
  {}

  /** A task that waits already keeps its place, under its new metadata; any other gets one
      more entry in its own queue and in no other. */
  lemma PushedOnce(s: Sched, meta: SchedMeta, front: bool)
    requires meta.taskID != ""
    ensures var t := if front then Returned(s, meta) else Enqueued(s, meta);
            && t.taskMeta == s.taskMeta[meta.taskID := meta] && t.queued.Keys == s.queued.Keys + {meta.taskID}
            && t.running == s.running && t.deadlines == s.deadlines
            && (meta.taskID in s.queued ==> t.lines == s.lines && t.queued == s.queued)
            && (meta.taskID !in s.queued ==>
                  t.queued[meta.taskID] == meta.Route().Kind()
                  && forall key ::
                       Line(t, key) == if key != meta.Route() then Line(s, key)
                                       else if front then [meta.taskID] + Line(s, key)
                                       else Line(s, key) + [meta.taskID])
  {}
}
