/** What becomes of a submitted task, over every run. */
module PoolDelivery {
  import opened Wrappers
  import opened CondVar
  import opened Sums
  import opened PoolModel
  import opened PoolInvariant
  import opened PoolRuns
  import opened PoolOwnership

  // ----- Where a task is -----------------------------------------------------------------------

  ghost predicate Mailed(s: State, c: CallerId) {
    exists w :: InMail(s.chan, w, c)
  }

  ghost predicate IsRunning(s: State, c: CallerId) {
    exists w :: Runs(s.threads, w, c)
  }

  predicate IsAccepted(p: Caller) {
    p.Accepted?
  }

  /** A task that was accepted is in exactly one place: waiting in the channel of the worker that was
      given it, being run by that worker, or over; it is over at most once, so it is never run
      twice.  A task that was not accepted, or not yet, is in none: it is still its caller's. */
  lemma TaskIsInOnePlace(s: State, c: CallerId)
    requires Reachable(s)
    ensures One(Mailed(s, c)) + One(IsRunning(s, c)) + s.finished[c] == One(c in s.callers && s.callers[c].Accepted?)
    ensures forall w :: InMail(s.chan, w, c) || Runs(s.threads, w, c) ==> c in s.callers && s.callers[c] == Accepted(w)
  {
    hide Reachable;
    ReachableInv(s);
    TaskPlaces(s, c);
  }

  lemma TaskPlaces(s: State, c: CallerId)
    requires TaskInv(s.callers, s.chan, s.threads, s.finished)
    ensures One(Mailed(s, c)) + One(IsRunning(s, c)) + s.finished[c] == One(c in s.callers && s.callers[c].Accepted?)
    ensures forall w :: InMail(s.chan, w, c) || Runs(s.threads, w, c) ==> c in s.callers && s.callers[c] == Accepted(w)
  {
    if c in s.callers && s.callers[c].Accepted? {
      var w := s.callers[c].w;
      assert Mailed(s, c) <==> InMail(s.chan, w, c);
      assert IsRunning(s, c) <==> Runs(s.threads, w, c);
    }
  }

  ghost function MailedTasks(s: State): set<CallerId> {
    set c | c in s.callers && Mailed(s, c)
  }

  ghost function RunningTasks(s: State): set<CallerId> {
    set c | c in s.callers && IsRunning(s, c)
  }

  ghost function FinishedTasks(s: State): set<CallerId> {
    set c | c in s.finished
  }

  lemma TaskSets(s: State, c: CallerId)
    requires TaskInv(s.callers, s.chan, s.threads, s.finished)
    ensures c in Where(s.callers, IsAccepted) <==> c in MailedTasks(s) || c in RunningTasks(s) || c in FinishedTasks(s)
    ensures !(c in MailedTasks(s) && c in RunningTasks(s))
    ensures !(c in MailedTasks(s) && c in FinishedTasks(s)) && !(c in RunningTasks(s) && c in FinishedTasks(s))
    ensures multiset(FinishedTasks(s))[c] == s.finished[c]
  {
    TaskPlaces(s, c);
  }

  /** Accepted tasks are conserved: as many as there are tasks in channels, being run and over. */
  lemma AcceptedTasksAreConserved(s: State)
    requires Reachable(s)
    ensures |Where(s.callers, IsAccepted)| == |MailedTasks(s)| + |RunningTasks(s)| + |FinishedTasks(s)|
    ensures multiset(FinishedTasks(s)) == s.finished
  {
    hide Reachable, Where, MailedTasks, RunningTasks, FinishedTasks, TaskInv;
    ReachableInv(s);
    forall c: CallerId
      ensures c in Where(s.callers, IsAccepted) <==> c in MailedTasks(s) || c in RunningTasks(s) || c in FinishedTasks(s)
      ensures !(c in MailedTasks(s) && c in RunningTasks(s))
      ensures !(c in MailedTasks(s) && c in FinishedTasks(s)) && !(c in RunningTasks(s) && c in FinishedTasks(s))
      ensures multiset(FinishedTasks(s))[c] == s.finished[c]
    {
      TaskSets(s, c);
    }
    DisjointUnion(Where(s.callers, IsAccepted), MailedTasks(s), RunningTasks(s), FinishedTasks(s));
  }

  lemma DisjointUnion<T>(all: set<T>, a: set<T>, b: set<T>, c: set<T>)
    requires forall x :: x in all <==> x in a || x in b || x in c
    requires forall x :: !(x in a && x in b) && !(x in a && x in c) && !(x in b && x in c)
    ensures |all| == |a| + |b| + |c|
  {
    assert all == a + b + c;
    assert a !! b && (a + b) !! c;
  }

  // ----- The life of a call --------------------------------------------------------------------

  /** Where a caller can go from each point, in one step of any thread. */
  predicate Goes(s: State, p: Caller, q: Caller) {
    match p
    case Start => q == if s.open then Ready else Rejected(PoolClosed)
    case Ready => q == Loop(false)
    case Loop(admitted) => q == Empty(admitted) || q.Holding?
    case Empty(admitted) => q == Sized(admitted, s.capacity)
    case Sized(admitted, cap) => q == if cap == -1 || cap > s.running then Spawning(admitted, cap) else Full(admitted)
    case Spawning(_, cap) => q.Fetched? && q.cap == cap
    case Fetched(_, w) => q == Holding(w)
    case Full(admitted) => q == if Overloaded(s) then Rejected(PoolOverload) else Queuing
    case Queuing => q == Parked(s.cond.generation, true)
    case Parked(since, _) =>
      || q == Parked(since, true)
      || (q == Parked(since, false) && !MayLeave(s.cond, since))
      || (q == Woken && MayLeave(s.cond, since))
    case Woken => q == Relocked
    case Relocked => q == Uncounted
    case Uncounted => q == if s.open then Loop(true) else Rejected(PoolClosed)
    case Holding(w) => q == Accepted(w)
    case Accepted(_) => false
    case Rejected(_) => false
  }

  ghost predicate Follows(s: State, s': State, c: CallerId)
    requires c in s.callers
  {
    c in s'.callers && (s'.callers[c] == s.callers[c] || Goes(s, s.callers[c], s'.callers[c]))
  }

  /** The steps up to the possession of a worker ... */
  lemma RetrievalFollows(s: State, e: Event, s': State, c: CallerId)
    requires CallerEvent(s, e, s') && c in s.callers
    requires e.Submit? || e.CallerMove? || e.CallerLock? || e.DetachWorker? || e.Fetch? || e.Spawn? || e.Bail?
    ensures Follows(s, s', c)
  {
  }

  /** ... and the wait and the delivery. */
  lemma WaitFollows(s: State, e: Event, s': State, c: CallerId)
    requires CallerEvent(s, e, s') && c in s.callers
    requires e.Queue? || e.Park? || e.Sleep? || e.Leave? || e.Uncount? || e.Resume? || e.Deliver? || e.Spurious?
    ensures Follows(s, s', c)
  {
  }

  lemma CallerFollows(s: State, e: Event, s': State, c: CallerId)
    requires CallerEvent(s, e, s') && c in s.callers
    ensures Follows(s, s', c)
  {
    hide Follows, Submits, CallerMoves, CallerTakesLock, Detaches, Fetches, Spawns, Bails, Queues, Parks, Sleeps, Leaves, Uncounts, Resumes, Delivers, WakesSpuriously;
    if e.Queue? || e.Park? || e.Sleep? || e.Leave? || e.Uncount? || e.Resume? || e.Deliver? || e.Spurious? {
      WaitFollows(s, e, s', c);
    } else {
      RetrievalFollows(s, e, s', c);
    }
  }

  /** Nobody but a caller moves a caller, except that a signal may notify one. */
  ghost predicate OnlyNotifies(s: State, s': State) {
    || s'.callers == s.callers
    || exists wake :: MayNotify(s.cond, s.callers, wake) && s'.callers == Notified(s.cond, s.callers, wake)
  }

  lemma WorkersOnlyNotify(s: State, e: Event, s': State)
    requires WorkerEvent(s, e, s')
    ensures OnlyNotifies(s, s')
  {
    hide OnlyNotifies, Announces, SignalsLate, MayNotify, Notified;
    if e.Announce? {
      AnnouncerOnlyNotifies(s, s', e.w, e.wake);
    } else if e.LateSignal? {
      LateSignalOnlyNotifies(s, s', e.wake);
    } else {
      assert s'.callers == s.callers;
      SameCallersIsFine(s, s');
    }
  }

  lemma SameCallersIsFine(s: State, s': State)
    requires s'.callers == s.callers
    ensures OnlyNotifies(s, s')
  {
  }

  lemma AnnouncerOnlyNotifies(s: State, s': State, w: WorkerId, wake: Option<CallerId>)
    requires Announces(s, s', w, wake)
    ensures OnlyNotifies(s, s')
  {
  }

  lemma LateSignalOnlyNotifies(s: State, s': State, wake: Option<CallerId>)
    requires SignalsLate(s, s', wake)
    ensures OnlyNotifies(s, s')
  {
  }

  lemma ServicesOnlyNotify(s: State, e: Event, s': State)
    requires ServiceEvent(s, e, s')
    ensures OnlyNotifies(s, s')
  {
  }

  lemma AdminOnlyNotifies(s: State, e: Event, s': State)
    requires AdminEvent(s, e, s')
    ensures OnlyNotifies(s, s')
  {
  }

  lemma TunersOnlyNotify(s: State, e: Event, s': State)
    requires TuneEvent(s, e, s')
    ensures OnlyNotifies(s, s')
  {
  }

  lemma NotifiedFollows(s: State, s': State, c: CallerId)
    requires OnlyNotifies(s, s') && c in s.callers
    ensures Follows(s, s', c)
  {
  }

  lemma StepFollows(s: State, e: Event, s': State, c: CallerId)
    requires Step(s, e, s') && c in s.callers
    ensures Follows(s, s', c)
  {
    hide Follows, OnlyNotifies, CallerEvent, WorkerEvent, ServiceEvent, AdminEvent, TuneEvent;
    if CallerEvent(s, e, s') {
      CallerFollows(s, e, s', c);
    } else {
      if WorkerEvent(s, e, s') {
        WorkersOnlyNotify(s, e, s');
      } else if ServiceEvent(s, e, s') {
        ServicesOnlyNotify(s, e, s');
      } else if AdminEvent(s, e, s') {
        AdminOnlyNotifies(s, e, s');
      } else {
        TunersOnlyNotify(s, e, s');
      }
      NotifiedFollows(s, s', c);
    }
  }

  /** What a call has returned it has returned: an accepted task stays with its worker and a
      rejected one is never taken after all, in whatever way the run goes on. */
  lemma {:induction false} OutcomeIsFinal(states: seq<State>, events: seq<Event>, i: nat, j: nat, c: CallerId)
    requires IsRun(states, events) && i <= j < |states|
    requires c in states[i].callers && (states[i].callers[c].Accepted? || states[i].callers[c].Rejected?)
    ensures c in states[j].callers && states[j].callers[c] == states[i].callers[c]
    decreases j - i
  {
    hide Step;
    if i < j {
      OutcomeIsFinal(states, events, i, j - 1, c);
      StepFollows(states[j - 1], events[j - 1], states[j], c);
    }
  }
}
