/** The reference-counted table of per-actor locks as a step machine
    (internal/actorlock/table.go:11-76). Each step is one mutex-protected section. */
module LockTable {

  /** Where a goroutine is between Lock and the end of its unlock closure. */
  datatype Pc =
    | Waiting(actor: string, entry: nat)
    | Holding(actor: string, entry: nat)
    | Releasing(actor: string, entry: nat)

  /** The table, every entry ever made, and the goroutines inside Lock or unlock. */
  datatype Table = Table(
    locks: map<string, nat>, refs: map<nat, int>, owner: map<nat, nat>, next: nat, pcs: map<nat, Pc>)

  const NEW_TABLE: Table := Table(map[], map[], map[], 0, map[])

  datatype Step =
    | Enter(t: nat, actor: string)
    | Acquire(t: nat)
    | Unlock(t: nat)
    | Deregister(t: nat)

  predicate Enabled(s: Table, step: Step) {
    match step
    case Enter(t, actor) => t !in s.pcs && actor != ""
    case Acquire(t) => t in s.pcs && s.pcs[t].Waiting? && s.pcs[t].entry !in s.owner
    case Unlock(t) => t in s.pcs && s.pcs[t].Holding?
    case Deregister(t) => t in s.pcs && s.pcs[t].Releasing?
  }

  function Refs(s: Table, e: nat): int {
    if e in s.refs then s.refs[e] else 0
  }

  function Next(s: Table, step: Step): Table {
    if !Enabled(s, step) then s
    else
      match step
      case Enter(t, actor) =>
        var e := if actor in s.locks then s.locks[actor] else s.next;
        s.(locks := s.locks[actor := e], refs := s.refs[e := Refs(s, e) + 1],
           next := if actor in s.locks then s.next else s.next + 1, pcs := s.pcs[t := Waiting(actor, e)])
      case Acquire(t) =>
        var pc := s.pcs[t];
        s.(owner := s.owner[pc.entry := t], pcs := s.pcs[t := Holding(pc.actor, pc.entry)])
      case Unlock(t) =>
        var pc := s.pcs[t];
        s.(owner := s.owner - {pc.entry}, pcs := s.pcs[t := Releasing(pc.actor, pc.entry)])
      case Deregister(t) =>
        var pc := s.pcs[t];
        var left := Refs(s, pc.entry) - 1;
        s.(refs := s.refs[pc.entry := left], pcs := s.pcs - {t},
           locks := if left == 0 && pc.actor in s.locks && s.locks[pc.actor] == pc.entry
                    then s.locks - {pc.actor} else s.locks)
  }

  function Run(steps: seq<Step>): Table {
    if steps == [] then NEW_TABLE else Next(Run(steps[..|steps| - 1]), steps[|steps| - 1])
  }

  /** Waiters, holders and releasers of an entry. */
  function Users(s: Table, e: nat): set<nat> {
    set t | t in s.pcs && s.pcs[t].entry == e
  }

  /** refs counts users; a used entry is the table's entry for its actor; an entry in the
      table is used, by one actor; an entry's mutex is owned by its holder. */
  ghost predicate Counted(s: Table) {
    forall e :: Refs(s, e) == |Users(s, e)|
  }

  ghost predicate Registered(s: Table) {
    InTable(s) && Live(s) && Distinct(s)
  }

  ghost predicate InTable(s: Table) {
    forall t :: t in s.pcs ==> s.pcs[t].actor in s.locks && s.locks[s.pcs[t].actor] == s.pcs[t].entry
  }

  ghost predicate Live(s: Table) {
    forall actor :: actor in s.locks ==> s.locks[actor] < s.next && Refs(s, s.locks[actor]) > 0
  }

  ghost predicate Distinct(s: Table) {
    forall a, b :: a in s.locks && b in s.locks && s.locks[a] == s.locks[b] ==> a == b
  }

  ghost predicate Owned(s: Table) {
    && (forall e :: e in s.owner ==> s.owner[e] in s.pcs && s.pcs[s.owner[e]].Holding? && s.pcs[s.owner[e]].entry == e)
    && (forall t :: t in s.pcs && s.pcs[t].Holding? ==> s.pcs[t].entry in s.owner && s.owner[s.pcs[t].entry] == t)
  }

  ghost predicate Inv(s: Table) {
    Counted(s) && Registered(s) && Owned(s) && forall e :: e in s.refs ==> e < s.next
  }

  lemma UsersAfter(s: Table, step: Step, e: nat)
    requires Enabled(s, step)
    ensures var more := Users(Next(s, step), e);
            match step
            case Enter(t, actor) =>
              more == (if Next(s, step).pcs[t].entry == e then Users(s, e) + {t} else Users(s, e)) && t !in Users(s, e)
            case Deregister(t) =>
              if s.pcs[t].entry == e then more == Users(s, e) - {t} && t in Users(s, e) else more == Users(s, e)
            case _ => more == Users(s, e)
  {}

  lemma CountedStep(s: Table, step: Step)
    requires Counted(s) && Enabled(s, step)
    ensures Counted(Next(s, step))
  {
    var u := Next(s, step);
    forall e ensures Refs(u, e) == |Users(u, e)| {
      assert Refs(s, e) == |Users(s, e)|;
      UsersAfter(s, step, e);
    }
  }

  lemma RegisteredEnter(s: Table, t: nat, actor: string)
    requires Registered(s) && Counted(s) && Enabled(s, Enter(t, actor))
    ensures Registered(Next(s, Enter(t, actor)))
  {
    hide Live, Distinct, InTable, Counted, Next;
    EnterInTable(s, t, actor);
    EnterLive(s, t, actor);
    EnterDistinct(s, t, actor);
  }

  lemma EnterInTable(s: Table, t: nat, actor: string)
    requires InTable(s) && Enabled(s, Enter(t, actor))
    ensures InTable(Next(s, Enter(t, actor)))
  {}

  lemma EnterLive(s: Table, t: nat, actor: string)
    requires Live(s) && Counted(s) && Enabled(s, Enter(t, actor))
    ensures Live(Next(s, Enter(t, actor)))
  {
    var e := if actor in s.locks then s.locks[actor] else s.next;
    assert Refs(s, e) == |Users(s, e)|;
    var u := Next(s, Enter(t, actor));
    forall a | a in u.locks ensures u.locks[a] < u.next && Refs(u, u.locks[a]) > 0 {
      if a != actor { assert a in s.locks; }
    }
  }

  lemma EnterDistinct(s: Table, t: nat, actor: string)
    requires Distinct(s) && Live(s) && Enabled(s, Enter(t, actor))
    ensures Distinct(Next(s, Enter(t, actor)))
  {
    hide Refs;
  }

  lemma RegisteredLeave(s: Table, t: nat)
    requires Registered(s) && Counted(s) && Enabled(s, Deregister(t))
    ensures Registered(Next(s, Deregister(t)))
  {
    hide Counted;
    LastUser(s, t);
    var pc, u := s.pcs[t], Next(s, Deregister(t));
    assert Refs(u, pc.entry) == Refs(s, pc.entry) - 1;
    forall a | a in u.locks ensures u.locks[a] < u.next && Refs(u, u.locks[a]) > 0 {
      assert a in s.locks;
      assert a != pc.actor ==> s.locks[a] != pc.entry;
    }
    forall o | o in u.pcs ensures u.pcs[o].actor in u.locks && u.locks[u.pcs[o].actor] == u.pcs[o].entry {
      assert o in s.pcs && o != t;
    }
  }

  /** A goroutine that moves on keeps its entry. */
  lemma RegisteredMove(s: Table, u: Table, t: nat)
    requires Registered(s) && u.locks == s.locks && u.refs == s.refs && u.next == s.next
    requires t in s.pcs && u.pcs.Keys == s.pcs.Keys
    requires forall o :: o in s.pcs ==> u.pcs[o].actor == s.pcs[o].actor && u.pcs[o].entry == s.pcs[o].entry
    ensures Registered(u)
  {}

  lemma MoveOn(s: Table, step: Step)
    requires Registered(s) && Enabled(s, step) && (step.Acquire? || step.Unlock?)
    ensures Registered(Next(s, step))
  {
    hide Registered;
    RegisteredMove(s, Next(s, step), step.t);
  }

  /** When the count reaches zero nobody else uses the entry. */
  lemma LastUser(s: Table, t: nat)
    requires Counted(s) && t in s.pcs
    ensures Refs(s, s.pcs[t].entry) >= 1
    ensures Refs(s, s.pcs[t].entry) == 1 ==> forall o :: o in s.pcs && o != t ==> s.pcs[o].entry != s.pcs[t].entry
  {
    var users := Users(s, s.pcs[t].entry);
    assert Refs(s, s.pcs[t].entry) == |users| && t in users;
    if |users| == 1 {
      assert |users - {t}| == 0;
      forall o | o in s.pcs && o != t ensures s.pcs[o].entry != s.pcs[t].entry {
        assert o !in users - {t};
      }
    }
  }

  lemma OwnedStep(s: Table, step: Step)
    requires Owned(s) && Enabled(s, step)
    ensures Owned(Next(s, step))
  {}

  lemma {:induction false} RunInv(steps: seq<Step>)
    ensures Inv(Run(steps))
  {
    hide Next, Counted, Registered, Owned;
    if steps == [] {
      EmptyInv();
    } else {
      var s, step := Run(steps[..|steps| - 1]), steps[|steps| - 1];
      RunInv(steps[..|steps| - 1]);
      if Enabled(s, step) {
        CountedStep(s, step);
        match step {
          case Enter(t, actor) => RegisteredEnter(s, t, actor);
          case Deregister(t) => RegisteredLeave(s, t);
          case Acquire(t) => MoveOn(s, step);
          case Unlock(t) => MoveOn(s, step);
        }
        OwnedStep(s, step);
        FreshEntries(s, step);
      } else {
        Stutter(s, step);
      }
    }
  }

  lemma EmptyInv()
    ensures Inv(NEW_TABLE)
  {
    forall e ensures Refs(NEW_TABLE, e) == |Users(NEW_TABLE, e)| {
      assert Users(NEW_TABLE, e) == {};
    }
  }

  lemma Stutter(s: Table, step: Step)
    requires !Enabled(s, step)
    ensures Next(s, step) == s
  {}

  lemma FreshEntries(s: Table, step: Step)
    requires Inv(s) && Enabled(s, step)
    ensures forall e :: e in Next(s, step).refs ==> e < Next(s, step).next
  {
    hide Users;
    if !step.Enter? {
      assert Registered(s);
    }
  }

  /** In every interleaving two goroutines never hold one actor's lock, even when its entry
      was evicted and made anew in between. */
  lemma MutualExclusion(steps: seq<Step>, t: nat, u: nat)
    requires var s := Run(steps); t in s.pcs && u in s.pcs && s.pcs[t].Holding? && s.pcs[u].Holding?
    requires Run(steps).pcs[t].actor == Run(steps).pcs[u].actor
    ensures t == u
  {
    hide Run, Counted;
    RunInv(steps);
  }

  /** The table holds exactly the actors somebody waits for, holds or is releasing; it is
      empty when nobody does. */
  lemma TableIsExact(steps: seq<Step>)
    ensures var s := Run(steps);
            && (forall actor :: actor in s.locks <==> exists t :: t in s.pcs && s.pcs[t].actor == actor)
            && (s.pcs == map[] ==> s.locks == map[])
  {
    hide Run;
    RunInv(steps);
    var s := Run(steps);
    forall actor | actor in s.locks ensures exists t :: t in s.pcs && s.pcs[t].actor == actor {
      assert Refs(s, s.locks[actor]) == |Users(s, s.locks[actor])|;
      var t :| t in Users(s, s.locks[actor]);
      assert s.locks[s.pcs[t].actor] == s.locks[actor];
    }
  }

  /** The closure's pointer comparison never fails when it matters: a count that reaches zero
      belongs to the entry in the table. */
  lemma EvictionGuardRedundant(steps: seq<Step>, t: nat)
    requires var s := Run(steps); t in s.pcs && s.pcs[t].Releasing?
    ensures var s := Run(steps);
            var pc := s.pcs[t];
            Refs(s, pc.entry) >= 1 && pc.actor in s.locks && s.locks[pc.actor] == pc.entry
            && (pc.actor !in Next(s, Deregister(t)).locks <==> Users(s, pc.entry) == {t})
  {
    hide Run;
    RunInv(steps);
    var s := Run(steps);
    LastUser(s, t);
    assert Refs(s, s.pcs[t].entry) == |Users(s, s.pcs[t].entry)| && t in Users(s, s.pcs[t].entry);
    if Refs(s, s.pcs[t].entry) == 1 {
      assert Users(s, s.pcs[t].entry) == {t};
    }
  }

  /** A waiter is never stuck behind nobody: either some goroutine holds its actor's lock
      through the very same entry, or the waiter may acquire. */
  lemma WaiterProgress(steps: seq<Step>, t: nat)
    requires var s := Run(steps); t in s.pcs && s.pcs[t].Waiting?
    ensures var s := Run(steps);
            Enabled(s, Acquire(t))
            || exists u :: u in s.pcs && s.pcs[u] == Holding(s.pcs[t].actor, s.pcs[t].entry)
  {
    hide Run, Counted;
    RunInv(steps);
    var s := Run(steps);
    if !Enabled(s, Acquire(t)) {
      var u := s.owner[s.pcs[t].entry];
      assert s.pcs[u] == Holding(s.pcs[t].actor, s.pcs[t].entry);
    }
  }

  // ---- Nobody stays -----------------------------------------------------------------------------

  function Waiters(s: Table): set<nat> {
    set t | t in s.pcs && s.pcs[t].Waiting?
  }

  function Holders(s: Table): set<nat> {
    set t | t in s.pcs && s.pcs[t].Holding?
  }

  function Releasers(s: Table): set<nat> {
    set t | t in s.pcs && s.pcs[t].Releasing?
  }

  /** In every interleaving the goroutines inside can all leave without a new one coming, and
      then the table is empty: no deadlock, and no entry is left behind. */
  lemma {:induction false} AllLeave(steps: seq<Step>) returns (more: seq<Step>)
    ensures forall step :: step in more ==> !step.Enter?
    ensures Run(steps + more).pcs == map[] && Run(steps + more).locks == map[]
    decreases |Waiters(Run(steps))|, |Holders(Run(steps))|, |Releasers(Run(steps))|
  {
    hide Run, Next, Enabled, Waiters, Holders, Releasers;
    var s := Run(steps);
    if s.pcs == map[] {
      TableIsExact(steps);
      assert steps + [] == steps;
      return [];
    }
    var step := SomeStep(steps);
    Shrinks(s, step);
    RunMore(steps, step);
    var rest := AllLeave(steps + [step]);
    assert steps + [step] + rest == steps + ([step] + rest);
    return [step] + rest;
  }

  lemma RunMore(steps: seq<Step>, step: Step)
    ensures Run(steps + [step]) == Next(Run(steps), step)
  {
    assert (steps + [step])[..|steps|] == steps;
  }

  /** Somebody inside can move. */
  lemma SomeStep(steps: seq<Step>) returns (step: Step)
    requires Run(steps).pcs != map[]
    ensures !step.Enter? && Enabled(Run(steps), step)
  {
    hide Run;
    var s := Run(steps);
    var t :| t in s.pcs;
    match s.pcs[t]
    case Releasing(_, _) => step := Deregister(t);
    case Holding(_, _) => step := Unlock(t);
    case Waiting(actor, entry) =>
      WaiterProgress(steps, t);
      if Enabled(s, Acquire(t)) {
        step := Acquire(t);
      } else {
        var u :| u in s.pcs && s.pcs[u] == Holding(actor, entry);
        step := Unlock(u);
      }
  }

  /** A goroutine goes from waiting to holding to releasing to gone. */
  lemma Shrinks(s: Table, step: Step)
    requires Enabled(s, step) && !step.Enter?
    ensures var u := Next(s, step);
            match step
            case Acquire(t) => |Waiters(u)| < |Waiters(s)|
            case Unlock(t) => Waiters(u) == Waiters(s) && |Holders(u)| < |Holders(s)|
            case _ => Waiters(u) == Waiters(s) && Holders(u) == Holders(s) && |Releasers(u)| < |Releasers(s)|
  {
    hide Waiters, Holders, Releasers, Refs;
    var t, u := step.t, Next(s, step);
    match step
    case Acquire(_) =>
      WithoutOne(s, u, t);
    case Unlock(_) =>
      WithoutOne(s, u, t);
    case Deregister(_) =>
      WithoutOne(s, u, t);
  }

  lemma WithoutOne(s: Table, u: Table, t: nat)
    requires t in s.pcs
    requires s.pcs[t].Waiting? ==> t in u.pcs && u.pcs == s.pcs[t := u.pcs[t]] && u.pcs[t].Holding?
    requires s.pcs[t].Holding? ==> t in u.pcs && u.pcs == s.pcs[t := u.pcs[t]] && u.pcs[t].Releasing?
    requires s.pcs[t].Releasing? ==> u.pcs == s.pcs - {t}
    ensures if s.pcs[t].Waiting? then |Waiters(u)| < |Waiters(s)|
            else Waiters(u) == Waiters(s)
                 && if s.pcs[t].Holding? then |Holders(u)| < |Holders(s)|
                    else Holders(u) == Holders(s) && |Releasers(u)| < |Releasers(s)|
  {
    if s.pcs[t].Waiting? {
      assert Waiters(u) == Waiters(s) - {t};
    } else if s.pcs[t].Holding? {
      assert Holders(u) == Holders(s) - {t};
    } else {
      assert Releasers(u) == Releasers(s) - {t};
    }
  }
}
