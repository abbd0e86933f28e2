/**
 Background tasks and their shutdown. Tasks are admitted to one of two lanes of a registry;
 a task's guard removes it and publishes its completion while holding the registry lock; after
 a shutdown call there are no new tasks, and the call returns when the old ones are gone.
 */
module Background {
  import opened Sequences

  datatype Lane = BestEffort | Waited

  datatype Registry = Registry(
    bestEffort: set<nat>, waited: set<nat>, nextId: nat, shuttingDown: bool, complete: bool)

  function Tasks(r: Registry): set<nat>
  {
    r.bestEffort + r.waited
  }

  function Register(r: Registry, lane: Lane): Registry
  {
    match lane
    case BestEffort => r.(bestEffort := r.bestEffort + {r.nextId}, nextId := r.nextId + 1)
    case Waited => r.(waited := r.waited + {r.nextId}, nextId := r.nextId + 1)
  }

  function Remove(r: Registry, lane: Lane, id: nat): Registry
  {
    match lane
    case BestEffort => r.(bestEffort := r.bestEffort - {id})
    case Waited => r.(waited := r.waited - {id})
  }

  /** The registry as it is changed in place under its lock. */
  class Inner {
    var bestEffort: set<nat>
    var waited: set<nat>
    var nextId: nat
    var shuttingDown: bool
    var complete: bool

    ghost function View(): Registry
      reads this
    {
      Registry(bestEffort, waited, nextId, shuttingDown, complete)
    }

    ghost predicate Valid()
      reads this
    {
      && bestEffort !! waited
      && (forall id :: id in bestEffort ==> id < nextId)
      && (forall id :: id in waited ==> id < nextId)
    }

    constructor ()
      ensures Valid() && View() == Registry({}, {}, 0, false, false)
    {
      bestEffort, waited, nextId, shuttingDown, complete := {}, {}, 0, false, false;
    }

    /** Admits a task unless shutdown has started; its id is new to both lanes. */
    method Spawn(lane: Lane) returns (id: Option<nat>)
      requires Valid()
      modifies this
      ensures Valid()
      ensures if old(shuttingDown) then id == None && View() == old(View())
              else id == Some(old(nextId)) && old(nextId) !in Tasks(old(View())) && View() == Register(old(View()), lane)
    {
      if shuttingDown {
        return None;
      }
      id := Some(nextId);
      match lane {
        case BestEffort => bestEffort := bestEffort + {nextId};
        case Waited => waited := waited + {nextId};
      }
      nextId := nextId + 1;
    }

    method Drop(lane: Lane, id: nat)
      requires Valid()
      modifies this
      ensures Valid() && View() == Remove(old(View()), lane, id)
    {
      match lane {
        case BestEffort => bestEffort := bestEffort - {id};
        case Waited => waited := waited - {id};
      }
    }

    /** Closes admission and reports what is left to wait for, or that there is nothing to do. */
    method BeginShutdown() returns (left: Option<(set<nat>, set<nat>)>)
      requires Valid()
      modifies this
      ensures Valid() && View() == old(View()).(shuttingDown := true)
      ensures left == if old(complete) then None else Some((old(bestEffort), old(waited)))
    {
      shuttingDown := true;
      left := if complete then None else Some((bestEffort, waited));
    }
  }

  // The system ---------------------------------------------------------------------------------

  /** A task and its completion: `epoch` counts the times its waiters were notified. */
  datatype Task = Task(lane: Lane, cancelled: bool, removed: bool, done: bool, epoch: nat)

  /** A waiter takes its ticket before it looks at `done`, and sleeps only on that ticket. */
  datatype Wait = Idle | Ticketed(id: nat, ticket: nat) | Parked(id: nat, ticket: nat)

  datatype Caller =
    | Starting
    | Cancelling(best: set<nat>, waited: set<nat>)
    | Waiting(best: set<nat>, waited: set<nat>, wait: Wait)
    | Returned

  datatype System = System(
    registry: Registry,
    tasks: map<nat, Task>,        // every task ever admitted
    lock: Option<nat>,            // the task whose guard holds the registry lock
    callers: map<nat, Caller>)    // shutdown calls

  datatype Event =
    | Spawn(lane: Lane)
    | GuardRemoves(id: nat)
    | GuardStores(id: nat)
    | GuardNotifies(id: nat)
    | Call(c: nat)
    | Begin(c: nat)
    | CancelTasks(c: nat)
    | TakeTicket(c: nat, id: nat)
    | LookDone(c: nat)
    | WakeUp(c: nat)
    | Finish(c: nat)
    | Abandon(c: nat)

  function Init(): System
  {
    System(Registry({}, {}, 0, false, false), map[], None, map[])
  }

  predicate InWait(s: System, c: nat)
  {
    c in s.callers && s.callers[c].Waiting?
  }

  predicate Enabled(s: System, e: Event)
  {
    match e
    case Spawn(_) => s.lock.None?
    case GuardRemoves(id) => s.lock.None? && id in s.tasks && !s.tasks[id].removed
    case GuardStores(id) => s.lock == Some(id) && id in s.tasks && !s.tasks[id].done
    case GuardNotifies(id) => s.lock == Some(id) && id in s.tasks && s.tasks[id].done
    case Call(c) => c !in s.callers
    case Begin(c) => s.lock.None? && c in s.callers && s.callers[c].Starting?
    case CancelTasks(c) => c in s.callers && s.callers[c].Cancelling?
    case TakeTicket(c, id) =>
      && InWait(s, c) && s.callers[c].wait.Idle? && id in s.tasks
      && (id in s.callers[c].best || (s.callers[c].best == {} && id in s.callers[c].waited))
    case LookDone(c) => InWait(s, c) && s.callers[c].wait.Ticketed? && s.callers[c].wait.id in s.tasks
    case WakeUp(c) =>
      && InWait(s, c) && s.callers[c].wait.Parked? && s.callers[c].wait.id in s.tasks
      && s.tasks[s.callers[c].wait.id].epoch > s.callers[c].wait.ticket
    case Finish(c) =>
      && s.lock.None? && InWait(s, c) && s.callers[c].wait.Idle?
      && s.callers[c].best == {} && s.callers[c].waited == {}
    case Abandon(c) => c in s.callers
  }

  function Admitted(s: System, lane: Lane): System
  {
    if s.registry.shuttingDown then s
    else s.(registry := Register(s.registry, lane),
            tasks := s.tasks[s.registry.nextId := Task(lane, false, false, false, 0)])
  }

  function Begun(s: System, c: nat): System
  {
    s.(registry := s.registry.(shuttingDown := true),
       callers := s.callers[c := if s.registry.complete then Returned
                                 else Cancelling(s.registry.bestEffort, s.registry.waited)])
  }

  function Looked(s: System, c: nat): System
    requires Enabled(s, LookDone(c))
  {
    var caller := s.callers[c];
    var id := caller.wait.id;
    s.(callers := s.callers[c :=
         if s.tasks[id].done then Waiting(caller.best - {id}, caller.waited - {id}, Idle)
         else caller.(wait := Parked(id, caller.wait.ticket))])
  }

  function Apply(s: System, e: Event): System
    requires Enabled(s, e)
  {
    match e
    case Spawn(lane) => Admitted(s, lane)
    case GuardRemoves(id) =>
      s.(registry := Remove(s.registry, s.tasks[id].lane, id), lock := Some(id),
         tasks := s.tasks[id := s.tasks[id].(removed := true)])
    case GuardStores(id) => s.(tasks := s.tasks[id := s.tasks[id].(done := true)])
    case GuardNotifies(id) => s.(tasks := s.tasks[id := s.tasks[id].(epoch := s.tasks[id].epoch + 1)], lock := None)
    case Call(c) => s.(callers := s.callers[c := Starting])
    case Begin(c) => Begun(s, c)
    case CancelTasks(c) =>
      s.(tasks := map id | id in s.tasks :: s.tasks[id].(cancelled := s.tasks[id].cancelled || id in s.callers[c].best),
         callers := s.callers[c := Waiting(s.callers[c].best, s.callers[c].waited, Idle)])
    case TakeTicket(c, id) => s.(callers := s.callers[c := s.callers[c].(wait := Ticketed(id, s.tasks[id].epoch))])
    case LookDone(c) => Looked(s, c)
    case WakeUp(c) => s.(callers := s.callers[c := s.callers[c].(wait := Idle)])
    case Finish(c) => s.(registry := s.registry.(complete := true), callers := s.callers[c := Returned])
    case Abandon(c) => s.(callers := s.callers - {c})
  }

  // The invariant ------------------------------------------------------------------------------

  /** The registry lists exactly the admitted tasks whose guard has not run, by lane. */
  ghost predicate Listed(s: System)
  {
    && (forall id :: id in s.registry.bestEffort <==> id in s.tasks && !s.tasks[id].removed && s.tasks[id].lane == BestEffort)
    && (forall id :: id in s.registry.waited <==> id in s.tasks && !s.tasks[id].removed && s.tasks[id].lane == Waited)
    && (forall id :: id in s.tasks ==> id < s.registry.nextId)
  }

  /** Removal, completion and notification happen in that order under one hold of the lock. */
  ghost predicate Guarded(s: System)
  {
    && (forall id :: id in s.tasks ==> (s.tasks[id].done ==> s.tasks[id].removed))
    && (forall id :: id in s.tasks && s.tasks[id].removed && s.lock != Some(id) ==> s.tasks[id].done)
    && (forall id :: id in s.tasks ==> s.tasks[id].epoch == if s.tasks[id].done && s.lock != Some(id) then 1 else 0)
    && (s.lock.Some? ==> s.lock.value in s.tasks && s.tasks[s.lock.value].removed)
  }

  /** Every admitted task is done or among those the call still waits for. */
  ghost predicate Awaited(s: System, best: set<nat>, waited: set<nat>)
  {
    && s.registry.shuttingDown
    && (forall id :: id in s.tasks ==> id in best || id in waited || s.tasks[id].done)
    && (forall id :: id in best ==> id in s.tasks && s.tasks[id].lane == BestEffort)
    && (forall id :: id in waited ==> id in s.tasks && s.tasks[id].lane == Waited)
  }

  /** A waiter's ticket predates any notification it still needs. */
  ghost predicate WaitOk(s: System, w: Wait)
  {
    match w
    case Idle => true
    case Ticketed(id, ticket) => id in s.tasks && ticket <= s.tasks[id].epoch
    case Parked(id, ticket) => id in s.tasks && ticket == 0
  }

  ghost predicate CallerOk(s: System, caller: Caller)
  {
    match caller
    case Starting => true
    case Cancelling(best, waited) => Awaited(s, best, waited)
    case Waiting(best, waited, wait) =>
      && Awaited(s, best, waited) && WaitOk(s, wait) && (wait.Idle? || wait.id in best + waited)
      && (forall id :: id in s.tasks && s.tasks[id].lane == BestEffort ==> s.tasks[id].cancelled || s.tasks[id].done)
    case Returned => s.registry.complete
  }

  ghost predicate Over(s: System)
  {
    s.registry.shuttingDown && forall id :: id in s.tasks ==> s.tasks[id].done
  }

  ghost predicate Inv(s: System)
  {
    && Listed(s) && Guarded(s)
    && (forall c :: c in s.callers ==> CallerOk(s, s.callers[c]))
    && (s.registry.complete ==> Over(s))
    && (forall id :: id in s.tasks && s.tasks[id].lane == Waited ==> !s.tasks[id].cancelled)
  }

  // Every event keeps it ------------------------------------------------------------------------

  /** Tasks only make progress, and none is added once shutdown has started. */
  ghost predicate Later(s: System, s': System)
  {
    && (s.registry.shuttingDown ==> s'.registry.shuttingDown && s'.tasks.Keys == s.tasks.Keys)
    && (s.registry.complete ==> s'.registry.complete)
    && (forall id :: id in s.tasks ==>
          && id in s'.tasks && s'.tasks[id].lane == s.tasks[id].lane
          && (s.tasks[id].done ==> s'.tasks[id].done) && s.tasks[id].epoch <= s'.tasks[id].epoch
          && (s.tasks[id].cancelled ==> s'.tasks[id].cancelled))
  }

  lemma CallerLater(s: System, s': System, caller: Caller)
    requires CallerOk(s, caller) && Later(s, s')
    ensures CallerOk(s', caller)
  {
  }

  lemma EventLater(s: System, e: Event)
    requires Listed(s) && Enabled(s, e)
    ensures Later(s, Apply(s, e))
  {
  }

  lemma ListedKept(s: System, e: Event)
    requires Listed(s) && Enabled(s, e)
    ensures Listed(Apply(s, e))
  {
  }

  lemma GuardedKept(s: System, e: Event)
    requires Listed(s) && Guarded(s) && Enabled(s, e)
    ensures Guarded(Apply(s, e))
  {
  }

  lemma WaitedKept(s: System, e: Event)
    requires Inv(s) && Enabled(s, e)
    ensures var s' := Apply(s, e);
            forall id :: id in s'.tasks && s'.tasks[id].lane == Waited ==> !s'.tasks[id].cancelled
  {
  }

  /** The call that moves stays in step with the tasks it waits for. */
  lemma MoverKept(s: System, e: Event)
    requires Inv(s) && Enabled(s, e)
    requires e.Call? || e.Begin? || e.CancelTasks? || e.TakeTicket? || e.LookDone? || e.WakeUp? || e.Finish?
    ensures var s' := Apply(s, e);
            e.c in s'.callers && CallerOk(s', s'.callers[e.c])
  {
    if e.LookDone? {
      LookKept(s, e.c);
    }
  }

  /** A waiter parks only when `done` was still unset after it took its ticket. */
  lemma LookKept(s: System, c: nat)
    requires Inv(s) && Enabled(s, LookDone(c))
    ensures var s' := Looked(s, c);
            CallerOk(s', s'.callers[c])
  {
    assert CallerOk(s, s.callers[c]);
  }

  lemma OthersStay(s: System, e: Event, c: nat)
    requires Enabled(s, e) && c in Apply(s, e).callers
    ensures Mover(e) == Some(c) || (c in s.callers && Apply(s, e).callers[c] == s.callers[c])
  {
  }

  function Mover(e: Event): Option<nat>
  {
    match e
    case Spawn(_) => None
    case GuardRemoves(_) => None
    case GuardStores(_) => None
    case GuardNotifies(_) => None
    case Abandon(_) => None
    case _ => Some(e.c)
  }

  lemma CallersKept(s: System, e: Event, c: nat)
    requires Inv(s) && Enabled(s, e) && c in Apply(s, e).callers
    ensures CallerOk(Apply(s, e), Apply(s, e).callers[c])
  {
    hide Listed, Guarded, CallerOk, Apply, Enabled, Over;
    OthersStay(s, e, c);
    if Mover(e) == Some(c) {
      MoverKept(s, e);
    } else {
      EventLater(s, e);
      CallerLater(s, Apply(s, e), s.callers[c]);
    }
  }

  lemma OverKept(s: System, e: Event)
    requires Inv(s) && Enabled(s, e) && Apply(s, e).registry.complete
    ensures Over(Apply(s, e))
  {
    if e.Finish? {
      assert CallerOk(s, s.callers[e.c]);
    } else {
      EventLater(s, e);
    }
  }

  lemma InvKept(s: System, e: Event)
    requires Inv(s) && Enabled(s, e)
    ensures Inv(Apply(s, e))
  {
    hide Listed, Guarded, CallerOk, Over, Apply, Enabled;
    ListedKept(s, e);
    GuardedKept(s, e);
    WaitedKept(s, e);
    forall c | c in Apply(s, e).callers ensures CallerOk(Apply(s, e), Apply(s, e).callers[c]) {
      CallersKept(s, e, c);
    }
    if Apply(s, e).registry.complete {
      OverKept(s, e);
    }
  }

  // Runs ---------------------------------------------------------------------------------------------

  datatype Run = Run(states: seq<System>, events: seq<Event>)

  ghost predicate Follows(run: Run, i: nat)
    requires |run.states| == |run.events| + 1 && i < |run.events|
  {
    Enabled(run.states[i], run.events[i]) && run.states[i + 1] == Apply(run.states[i], run.events[i])
  }

  ghost predicate ValidRun(run: Run)
  {
    && |run.states| == |run.events| + 1 && run.states[0] == Init()
    && forall i :: 0 <= i < |run.events| ==> Follows(run, i)
  }

  lemma {:induction false} AlwaysInv(run: Run, i: nat)
    requires ValidRun(run) && i < |run.states|
    ensures Inv(run.states[i])
  {
    if i > 0 {
      hide Inv, Apply, Enabled;
      AlwaysInv(run, i - 1);
      assert Follows(run, i - 1);
      InvKept(run.states[i - 1], run.events[i - 1]);
    }
  }

  lemma {:induction false} AlwaysLater(run: Run, i: nat, j: nat)
    requires ValidRun(run) && i <= j < |run.states|
    ensures Later(run.states[i], run.states[j])
    decreases j - i
  {
    hide Inv, Apply, Enabled;
    if i < j {
      AlwaysLater(run, i, j - 1);
      AlwaysInv(run, j - 1);
      assert Follows(run, j - 1);
      InvListed(run.states[j - 1]);
      EventLater(run.states[j - 1], run.events[j - 1]);
    }
  }

  lemma InvListed(s: System)
    requires Inv(s)
    ensures Listed(s)
  {
  }

  /**
   Once any shutdown call has returned, in that state and ever after, every task that was
   ever admitted has finished and both lanes are empty.
   */
  lemma ShutdownReturnsWhenAllIsDone(run: Run, i: nat, j: nat, c: nat)
    requires ValidRun(run) && i <= j < |run.states|
    requires c in run.states[i].callers && run.states[i].callers[c].Returned?
    ensures forall id :: id in run.states[j].tasks ==> run.states[j].tasks[id].done
    ensures run.states[j].registry.bestEffort == {} && run.states[j].registry.waited == {}
  {
    AlwaysInv(run, i);
    AlwaysLater(run, i, j);
    AlwaysInv(run, j);
    assert CallerOk(run.states[i], run.states[i].callers[c]);
    AllDoneNothingListed(run.states[j]);
  }

  lemma AllDoneNothingListed(s: System)
    requires Listed(s) && Guarded(s) && Over(s)
    ensures s.registry.bestEffort == {} && s.registry.waited == {}
  {
    forall id ensures id !in s.registry.bestEffort && id !in s.registry.waited {
    }
  }

  /** No task is admitted once shutdown has started. */
  lemma NothingAdmittedAfterShutdown(run: Run, i: nat, j: nat)
    requires ValidRun(run) && i <= j < |run.states| && run.states[i].registry.shuttingDown
    ensures run.states[j].tasks.Keys == run.states[i].tasks.Keys
  {
    AlwaysLater(run, i, j);
  }

  lemma WaitedTasksAreNeverCancelled(run: Run, i: nat, id: nat)
    requires ValidRun(run) && i < |run.states| && id in run.states[i].tasks
    requires run.states[i].tasks[id].lane == Waited
    ensures !run.states[i].tasks[id].cancelled
  {
    AlwaysInv(run, i);
  }

  /** Until shutdown starts every task is admitted, under a new id and to the lane asked for; then none is. */
  lemma AdmitsUntilShutdown(run: Run, i: nat, lane: Lane)
    requires ValidRun(run) && i < |run.events| && run.events[i] == Spawn(lane)
    ensures var s, s' := run.states[i], run.states[i + 1];
            if s.registry.shuttingDown then s' == s
            else
              && s.registry.nextId !in s.tasks && s'.tasks.Keys == s.tasks.Keys + {s.registry.nextId}
              && s'.tasks[s.registry.nextId].lane == lane && !s'.tasks[s.registry.nextId].done
              && s.registry.nextId in (if lane == BestEffort then s'.registry.bestEffort else s'.registry.waited)
  {
    AlwaysInv(run, i);
    AlwaysInv(run, i + 1);
    assert Follows(run, i);
  }

  /** Before it waits, a shutdown call has cancelled every best-effort task that has not finished. */
  lemma BestEffortTasksAreCancelled(run: Run, i: nat, j: nat, c: nat, id: nat)
    requires ValidRun(run) && i <= j < |run.states| && c in run.states[i].callers
    requires run.states[i].callers[c].Waiting? || run.states[i].callers[c].Returned?
    requires id in run.states[j].tasks && run.states[j].tasks[id].lane == BestEffort
    ensures run.states[j].tasks[id].cancelled || run.states[j].tasks[id].done
  {
    AlwaysInv(run, i);
    assert CallerOk(run.states[i], run.states[i].callers[c]);
    AlwaysLater(run, i, j);
  }

  /** Once a shutdown has completed, another call returns as soon as it begins; before, it never does. */
  lemma ShutdownRepeatsAtOnce(s: System, c: nat)
    requires Enabled(s, Begin(c))
    ensures var s' := Apply(s, Begin(c));
            s'.registry.shuttingDown && c in s'.callers && (s'.callers[c].Returned? <==> s.registry.complete)
  {
  }

  /** A parked waiter whose task has finished can always wake: it never missed the notification. */
  lemma NoWakeupIsMissed(run: Run, i: nat, c: nat)
    requires ValidRun(run) && i < |run.states| && InWait(run.states[i], c) && run.states[i].callers[c].wait.Parked?
    ensures var s, id := run.states[i], run.states[i].callers[c].wait.id;
            && id in s.tasks
            && (s.tasks[id].done ==> Enabled(s, WakeUp(c)) || (s.lock == Some(id) && Enabled(s, GuardNotifies(id))))
  {
    AlwaysInv(run, i);
    assert CallerOk(run.states[i], run.states[i].callers[c]);
  }

  // Shutdown returns ----------------------------------------------------------------------------------

  ghost predicate AllDone(s: System)
  {
    s.lock.None? && forall id :: id in s.tasks ==> s.tasks[id].done
  }

  /**
   Once every admitted task has finished, each shutdown call that has not returned has a move
   of its own: to begin, to cancel, to take a ticket, to look, to wake or to finish.
   */
  lemma ShutdownCanAlwaysMove(run: Run, i: nat, c: nat)
    requires ValidRun(run) && i < |run.states| && AllDone(run.states[i])
    requires c in run.states[i].callers && !run.states[i].callers[c].Returned?
    ensures exists e :: Mover(e) == Some(c) && Enabled(run.states[i], e)
  {
    var s := run.states[i];
    AlwaysInv(run, i);
    assert CallerOk(s, s.callers[c]);
    var e := OwnMove(s, c);
    assert Mover(e) == Some(c) && Enabled(s, e);
  }

  ghost function OwnMove(s: System, c: nat): Event
    requires c in s.callers
  {
    match s.callers[c]
    case Starting => Begin(c)
    case Cancelling(_, _) => CancelTasks(c)
    case Waiting(best, waited, Idle) =>
      if id :| id in best then TakeTicket(c, id) else if id :| id in waited then TakeTicket(c, id) else Finish(c)
    case Waiting(_, _, Ticketed(_, _)) => LookDone(c)
    case Waiting(_, _, Parked(_, _)) => WakeUp(c)
    case Returned => Finish(c)
  }

  /** How many moves a call is away from returning, at most, when no task is left. */
  ghost function Distance(caller: Caller): nat
  {
    match caller
    case Returned => 0
    case Waiting(best, waited, wait) =>
      4 * (|best| + |waited|) + (match wait case Ticketed(_, _) => 1 case Idle => 2 case Parked(_, _) => 3)
    case Cancelling(best, waited) => 4 * (|best| + |waited|) + 4
    case Starting => 5
  }

  ghost predicate Quiet(s: System)
  {
    s.registry.shuttingDown && AllDone(s)
  }

  lemma QuietStays(s: System, e: Event)
    requires Inv(s) && Quiet(s) && Enabled(s, e)
    ensures Quiet(Apply(s, e))
  {
  }

  lemma OwnMovesApproach(s: System, e: Event, c: nat)
    requires Inv(s) && Quiet(s) && Enabled(s, e) && c in s.callers && Mover(e) == Some(c)
    ensures c in Apply(s, e).callers && Distance(Apply(s, e).callers[c]) < Distance(s.callers[c])
  {
    assert CallerOk(s, s.callers[c]);
    match e
    case Begin(_) => AllDoneNothingListed(s);
    case LookDone(_) => LookApproaches(s, c);
    case _ =>
  }

  lemma LookApproaches(s: System, c: nat)
    requires Quiet(s) && Enabled(s, LookDone(c)) && CallerOk(s, s.callers[c])
    ensures Distance(Looked(s, c).callers[c]) < Distance(s.callers[c])
  {
    var caller := s.callers[c];
    var id := caller.wait.id;
    SetShrinks(caller.best, id);
    SetShrinks(caller.waited, id);
  }

  lemma SetShrinks(ids: set<nat>, id: nat)
    ensures |ids - {id}| == |ids| - (if id in ids then 1 else 0)
  {
    if id !in ids {
      assert ids - {id} == ids;
    }
  }

  /** The moves of one call between two states of a run. */
  ghost function MovesOf(run: Run, i: nat, j: nat, c: nat): nat
    requires i <= j <= |run.events|
    decreases j - i
  {
    if i == j then 0
    else MovesOf(run, i, j - 1, c) + if Mover(run.events[j - 1]) == Some(c) then 1 else 0
  }

  /**
   From a state where shutdown has begun and no task is left, a call that is not given up
   comes closer to its return with every move it makes and is never set back by another's,
   so it returns after at most as many moves as its distance.
   */
  lemma {:induction false} ShutdownCallsReturn(run: Run, i: nat, j: nat, c: nat)
    requires ValidRun(run) && i <= j < |run.states| && Quiet(run.states[i]) && c in run.states[i].callers
    requires forall k :: i <= k < j ==> run.events[k] != Abandon(c)
    ensures Quiet(run.states[j]) && c in run.states[j].callers
    ensures MovesOf(run, i, j, c) + Distance(run.states[j].callers[c]) <= Distance(run.states[i].callers[c])
    ensures Distance(run.states[j].callers[c]) == 0 <==> run.states[j].callers[c].Returned?
    decreases j - i
  {
    hide Inv, Apply, Enabled, Quiet;
    if i < j {
      ShutdownCallsReturn(run, i, j - 1, c);
      AlwaysInv(run, j - 1);
      assert Follows(run, j - 1);
      var s, e := run.states[j - 1], run.events[j - 1];
      QuietStays(s, e);
      if Mover(e) == Some(c) {
        OwnMovesApproach(s, e, c);
      } else {
        CallersStay(s, e, c);
      }
    }
  }

  lemma CallersStay(s: System, e: Event, c: nat)
    requires Enabled(s, e) && c in s.callers && Mover(e) != Some(c) && e != Abandon(c)
    ensures c in Apply(s, e).callers && Apply(s, e).callers[c] == s.callers[c]
  {
  }

  /** The registry's own checks hold: a new id is unused, and a guard finds its task listed. */
  lemma RegistryChecksHold(run: Run, i: nat, id: nat)
    requires ValidRun(run) && i < |run.states|
    ensures run.states[i].registry.nextId !in Tasks(run.states[i].registry)
    ensures Enabled(run.states[i], GuardRemoves(id)) ==> id in Tasks(run.states[i].registry)
  {
    AlwaysInv(run, i);
  }
}
