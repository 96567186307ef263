/** Long-poll wake-ups as a step machine
    (internal/control/service.go:194-219,551-575,1012-1021). Pushing a task and notifying
    are two steps, and so are capturing the signal, polling and blocking on it. */
module Notify {
  import opened Basics

  /** A poller after taskAvailableSignal: polling, or blocked on the channel it captured. */
  datatype Poller = Polling(channel: nat, since: nat) | Blocked(channel: nat, since: nat)

  /** A worker and a task it may be given. */
  type Offer = (nat, string)

  /** Open offers with the time they came up, and notifiers that still have to notify with
      the offers they brought. A submission offers its task to the workers that may run it; a
      completion, registration or heartbeat offers what it has unblocked. */
  datatype Bus = Bus(
    current: Option<nat>, closed: set<nat>, next: nat, doubleClose: bool,
    offers: map<Offer, nat>, pending: map<nat, set<Offer>>, pollers: map<nat, Poller>, clock: nat)

  const NEW_BUS: Bus := Bus(None, {}, 0, false, map[], map[], map[], 0)

  datatype Step =
    | Bring(notifier: nat, offers: set<Offer>)
    | Withdraw(offers: set<Offer>)
    | NotifyAll(notifier: nat)
    | Capture(poller: nat)
    | Take(poller: nat, task: string)
    | Miss(poller: nat)
    | Wake(poller: nat)
    | GiveUp(poller: nat)

  /** A pass may overlook an offer that came up after the poller captured its signal, but
      takes a task when one was on offer all along. */
  predicate Overlooks(s: Bus, p: nat)
    requires p in s.pollers
  {
    forall o :: o in s.offers && o.0 == p ==> s.offers[o] > s.pollers[p].since
  }

  predicate Enabled(s: Bus, step: Step) {
    match step
    case Bring(u, offers) => u !in s.pending
    case Withdraw(offers) => true
    case NotifyAll(u) => u in s.pending
    case Capture(p) => p !in s.pollers
    case Take(p, task) => p in s.pollers && s.pollers[p].Polling? && (p, task) in s.offers
    case Miss(p) => p in s.pollers && s.pollers[p].Polling? && Overlooks(s, p)
    case Wake(p) => p in s.pollers && s.pollers[p].Blocked? && s.pollers[p].channel in s.closed
    case GiveUp(p) => p in s.pollers
  }

  function Brought(s: Bus, offers: set<Offer>, now: nat): map<Offer, nat> {
    map o | o in s.offers.Keys + offers :: if o in s.offers then s.offers[o] else now
  }

  function Next(s: Bus, step: Step): Bus {
    if !Enabled(s, step) then s
    else
      var now := s.clock + 1;
      match step
      case Bring(u, offers) => s.(offers := Brought(s, offers, now), pending := s.pending[u := offers], clock := now)
      case Withdraw(offers) => s.(offers := s.offers - offers, clock := now)
      case NotifyAll(u) =>
        var quiet := s.(pending := s.pending - {u}, clock := now);
        if s.current.None? then quiet.(current := Some(s.next), next := s.next + 1)
        else
          quiet.(doubleClose := s.doubleClose || s.current.value in s.closed, closed := s.closed + {s.current.value},
                 current := Some(s.next), next := s.next + 1)
      case Capture(p) =>
        var c := if s.current.Some? then s.current.value else s.next;
        s.(current := Some(c), next := if s.current.Some? then s.next else s.next + 1,
           pollers := s.pollers[p := Polling(c, now)], clock := now)
      case Take(p, task) =>
        s.(offers := map o | o in s.offers && o.1 != task :: s.offers[o], pollers := s.pollers - {p}, clock := now)
      case Miss(p) => s.(pollers := s.pollers[p := Blocked(s.pollers[p].channel, s.pollers[p].since)], clock := now)
      case Wake(p) => s.(pollers := s.pollers - {p}, clock := now)
      case GiveUp(p) => s.(pollers := s.pollers - {p}, clock := now)
  }

  function Run(steps: seq<Step>): Bus {
    if steps == [] then NEW_BUS else Next(Run(steps[..|steps| - 1]), steps[|steps| - 1])
  }

  /** The current channel is open and new; every captured channel is the current one or closed. */
  predicate Channels(s: Bus) {
    && (s.current.Some? ==> s.current.value < s.next && s.current.value !in s.closed)
    && (forall c :: c in s.closed ==> c < s.next)
    && (forall p :: p in s.pollers ==> s.pollers[p].channel in s.closed || s.current == Some(s.pollers[p].channel))
    && !s.doubleClose
  }

  predicate Announced(s: Bus, o: Offer) {
    forall u :: u in s.pending ==> o !in s.pending[u]
  }

  /** An offer that came up after its poller's capture and was announced has closed the
      captured channel. */
  predicate Signalled(s: Bus) {
    && (forall o :: o in s.offers ==> s.offers[o] <= s.clock)
    && (forall o :: o in s.offers && o.0 in s.pollers && s.offers[o] > s.pollers[o.0].since && Announced(s, o)
          ==> s.pollers[o.0].channel in s.closed)
  }

  /** What a blocked poller overlooked came after its capture. */
  predicate Honest(s: Bus) {
    forall o :: o in s.offers && o.0 in s.pollers && s.pollers[o.0].Blocked? ==> s.offers[o] > s.pollers[o.0].since
  }

  predicate Inv(s: Bus) {
    Channels(s) && Signalled(s) && Honest(s) && forall p :: p in s.pollers ==> s.pollers[p].since <= s.clock
  }

  lemma ChannelsStep(s: Bus, step: Step)
    requires Channels(s)
    ensures Channels(Next(s, step))
  {
    hide Brought;
  }

  lemma SignalledStep(s: Bus, step: Step)
    requires Inv(s)
    ensures Signalled(Next(s, step))
  {
    var t := Next(s, step);
    forall o | o in t.offers && o.0 in t.pollers && t.offers[o] > t.pollers[o.0].since && Announced(t, o)
      ensures t.pollers[o.0].channel in t.closed
    {
      if step.Bring? && Enabled(s, step) {
        assert t.pending[step.notifier] == step.offers;
        assert o !in step.offers;
        assert Announced(s, o) by {
          forall u | u in s.pending ensures o !in s.pending[u] {
            assert t.pending[u] == s.pending[u];
          }
        }
      } else if !step.NotifyAll? {
        assert Announced(s, o);
      }
    }
  }

  lemma HonestStep(s: Bus, step: Step)
    requires Inv(s)
    ensures Honest(Next(s, step))
  {}

  lemma ClockStep(s: Bus, step: Step)
    requires forall p :: p in s.pollers ==> s.pollers[p].since <= s.clock
    ensures var t := Next(s, step); forall p :: p in t.pollers ==> t.pollers[p].since <= t.clock
  {
    hide Brought;
  }

  lemma {:induction false} RunInv(steps: seq<Step>)
    ensures Inv(Run(steps))
  {
    hide Next, Channels, Signalled, Honest;
    if steps == [] {
      EmptyInv();
    } else {
      var s, step := Run(steps[..|steps| - 1]), steps[|steps| - 1];
      RunInv(steps[..|steps| - 1]);
      ChannelsStep(s, step);
      SignalledStep(s, step);
      HonestStep(s, step);
      ClockStep(s, step);
    }
  }

  lemma EmptyInv()
    ensures Inv(NEW_BUS)
  {}

  /** In every interleaving: while a poller is blocked and something is on offer to it whose
      notifier has notified, the poller's channel is closed, so it can wake. */
  lemma NoLostWakeup(steps: seq<Step>, p: nat, task: string)
    requires var s := Run(steps);
             p in s.pollers && s.pollers[p].Blocked? && (p, task) in s.offers && Announced(s, (p, task))
    ensures Enabled(Run(steps), Wake(p))
  {
    hide Run, Channels;
    RunInv(steps);
    var o: Offer := (p, task);
    assert o.0 in Run(steps).pollers;
  }

  /** No channel is ever closed twice. */
  lemma ClosedOnce(steps: seq<Step>)
    ensures !Run(steps).doubleClose
  {
    hide Run, Signalled, Honest;
    RunInv(steps);
  }

  lemma RunMore(steps: seq<Step>, step: Step)
    ensures Run(steps + [step]) == Next(Run(steps), step)
  {
    assert (steps + [step])[..|steps|] == steps;
  }

  /** What a notifier brings is on offer, and wakes every poller that is blocked by then. */
  lemma BroughtAndWoken(steps: seq<Step>, u: nat, offers: set<Offer>, p: nat, task: string)
    requires var s := Run(steps); u !in s.pending && p in s.pollers && s.pollers[p].Blocked? && (p, task) in offers
    ensures var t := Run(steps + [Bring(u, offers)] + [NotifyAll(u)]);
            (p, task) in t.offers && Enabled(t, Wake(p))
  {
    hide Run, Signalled, Honest;
    RunMore(steps, Bring(u, offers));
    RunMore(steps + [Bring(u, offers)], NotifyAll(u));
    RunInv(steps);
  }

  /** A poller that polls takes a task or blocks; it does not block while a task is on offer
      to it that was there when it captured its channel. */
  lemma PassEnds(steps: seq<Step>, p: nat)
    requires p in Run(steps).pollers && Run(steps).pollers[p].Polling?
    ensures var s := Run(steps);
            Enabled(s, Miss(p)) || exists o :: o in s.offers && o.0 == p && Enabled(s, Take(p, o.1))
    ensures var s := Run(steps);
            Enabled(s, Miss(p)) ==> forall task :: (p, task) in s.offers ==> s.offers[(p, task)] > s.pollers[p].since
  {
    hide Run;
    var s := Run(steps);
    if !Enabled(s, Miss(p)) {
      var o :| o in s.offers && o.0 == p;
      assert Enabled(s, Take(p, o.1));
    }
  }

  predicate Offers(s: Bus, task: string) {
    exists o :: o in s.offers && o.1 == task
  }

  predicate Brings(step: Step, task: string) {
    step.Bring? && exists o :: o in step.offers && o.1 == task
  }

  lemma StaysTaken(s: Bus, step: Step, task: string)
    requires !Offers(s, task) && !Brings(step, task)
    ensures !Offers(Next(s, step), task)
  {
    forall o | o in Next(s, step).offers ensures o.1 != task {
      if o !in s.offers {
        assert step.Bring? && o in step.offers;
      }
    }
  }

  /** No task is taken twice unless it was brought anew in between. */
  lemma {:induction false} TakenOnce(steps: seq<Step>, i: nat, j: nat, p: nat, task: string)
    requires i < j <= |steps| && steps[i] == Take(p, task) && Enabled(Run(steps[..i]), steps[i])
    requires forall k :: i < k < j ==> !Brings(steps[k], task)
    ensures forall q :: !Enabled(Run(steps[..j]), Take(q, task))
    ensures !Offers(Run(steps[..j]), task)
    decreases j
  {
    hide Run, Brings;
    assert steps[..j] == steps[..j - 1] + [steps[j - 1]];
    RunMore(steps[..j - 1], steps[j - 1]);
    if i < j - 1 {
      TakenOnce(steps, i, j - 1, p, task);
      StaysTaken(Run(steps[..j - 1]), steps[j - 1], task);
    }
  }
}
