/** Who may act on a key: exactly one entitled task, and at most one worker round in flight. */
module DedupControl {
  import opened Sequences
  import opened DedupQueue
  import opened DedupMachine
  import opened DedupCell

  /** The task is the party named by the phase and stands where that phase expects it. */
  ghost predicate Matches<R(!new)>(phase: Phase, d: nat, t: Task<R>)
  {
    match phase
    case Ready(driver) => driver == Driver(d, t.kind) && t.pc == AtStart
    case Running(driver, signal) =>
      && driver == Driver(d, t.kind)
      && (t.pc == InWorker(signal) || (t.pc.RoundOver? && t.pc.signal == signal))
    case Completing(driver) => driver == Driver(d, t.kind) && (t.pc.Delivering? || t.pc.Finalizing?)
    case Handoff(owner) => owner == d && t.kind == Owner && t.pc == Reserved
  }

  function PhaseOf<R>(m: Option<Machine<R>>): Option<Phase>
  {
    match m case None => None case Some(x) => Some(x.phase)
  }

  /** The key is in the map and its phase names this task. */
  ghost predicate Drives(phase: Option<Phase>, d: nat)
  {
    phase.Some? && Entitled(phase.value) == d
  }

  ghost predicate OneEntitled<R(!new)>(phase: Option<Phase>, tasks: map<nat, Task<R>>)
  {
    phase.Some? ==>
      Entitled(phase.value) in tasks && Matches(phase.value, Entitled(phase.value), tasks[Entitled(phase.value)])
  }

  ghost predicate OneBusy<R(!new)>(tasks: map<nat, Task<R>>)
  {
    && (forall d, e :: d in tasks && e in tasks && tasks[d].pc.InWorker? && tasks[e].pc.InWorker? ==> d == e)
    && (forall d, e :: d in tasks && e in tasks && tasks[d].pc.Delivering? && tasks[e].pc.Delivering? ==> d == e)
  }

  ghost predicate ControlOf<R(!new)>(
    phase: Option<Phase>, tasks: map<nat, Task<R>>, swept: bool, closing: bool, next: nat)
  {
    && (forall d :: d in tasks ==> d < next)
    && OneEntitled(phase, tasks)
    && (!swept ==> forall d :: d in tasks && !Drives(phase, d) ==> tasks[d].pc == Returning)
    && (swept ==> closing && (phase.Some? ==> phase.value.Ready? && phase.value.driver.kind == Inline))
    && OneBusy(tasks)
  }

  ghost predicate Control<R(!new)>(c: Cell<R>, closing: bool, next: nat)
  {
    ControlOf(PhaseOf(c.machine), c.tasks, c.swept, closing, next)
  }

  // How one task's move carries control -------------------------------------------------

  /** The entitled task moves on together with its phase, or leaves with the key removed. */
  lemma EntitledMoves<R(!new)>(
    phase: Option<Phase>, tasks: map<nat, Task<R>>, swept: bool, closing: bool, next: nat,
    d: nat, t: Task<R>, phase': Option<Phase>)
    requires ControlOf(phase, tasks, swept, closing, next) && Drives(phase, d)
    requires t.pc == Returning || (!swept && phase'.Some?)
    requires phase'.None? ==> t.pc == Returning
    requires phase'.Some? ==> Entitled(phase'.value) == d && Matches(phase'.value, d, t)
    ensures ControlOf(phase', tasks[d := t], swept, closing, next + 1)
  {
  }

  /** A task the phase does not name can only move when the shard was swept under it. */
  lemma StrangerMoves<R(!new)>(
    phase: Option<Phase>, tasks: map<nat, Task<R>>, swept: bool, closing: bool, next: nat, d: nat, t: Task<R>)
    requires ControlOf(phase, tasks, swept, closing, next) && d in tasks && !Drives(phase, d)
    requires t.pc == Returning || (swept && t.pc == tasks[d].pc)
    ensures ControlOf(phase, tasks[d := t], swept, closing, next + 1)
  {
  }

  /** Handing the key to a fresh owner makes the reservation the only entitlement. */
  lemma HandsOff<R(!new)>(
    phase: Option<Phase>, tasks: map<nat, Task<R>>, swept: bool, closing: bool, next: nat,
    d: nat, rest: map<nat, Task<R>>, t: Task<R>)
    requires ControlOf(phase, tasks, swept, closing, next) && Drives(phase, d) && !swept
    requires forall e :: e in rest ==> e in tasks && (rest[e] == tasks[e] || e == d)
    requires d in rest ==> rest[d].pc == Returning
    requires t.kind == Owner && t.pc == Reserved
    ensures ControlOf(Some(Handoff(next)), rest[next := t], swept, closing, next + 1)
  {
  }

  /** A task leaves: it was a stranger, or the key leaves the map with it. */
  lemma Leaves<R(!new)>(
    phase: Option<Phase>, tasks: map<nat, Task<R>>, swept: bool, closing: bool, next: nat, d: nat, phase': Option<Phase>)
    requires ControlOf(phase, tasks, swept, closing, next)
    requires if Drives(phase, d) then phase' == None else phase' == phase
    ensures ControlOf(phase', tasks - {d}, swept, closing, next + 1)
  {
  }

  // One lemma per event -----------------------------------------------------------------

  lemma ControlSubmit<R(!new)>(p: Policy<R>, c: Cell<R>, closing: bool, next: nat, r: R)
    requires Control(c, closing, next)
    ensures Control(DoSubmit(p, c, next, r), closing, next + 1)
  {
  }

  lemma ControlStart<R(!new)>(p: Policy<R>, c: Cell<R>, closing: bool, next: nat, d: nat, dying: set<nat>)
    requires Control(c, closing, next) && Enabled(c, closing, Start(d, dying))
    ensures var c' := DoStart(p, c, closing, next, d, dying);
            c'.panicked || Control(c', closing, next + 1)
  {
    var c' := DoStart(p, c, closing, next, d, dying);
    var phase := PhaseOf(c.machine);
    if Drives(phase, d) {
      StartShape(p, c.machine.value, d, closing, next, c.dead, c.dead + dying);
      if !c'.panicked {
        EntitledMoves(phase, c.tasks, c.swept, closing, next, d, c'.tasks[d], PhaseOf(c'.machine));
      }
    } else {
      StrangerMoves(phase, c.tasks, c.swept, closing, next, d, c'.tasks[d]);
    }
  }

  lemma ControlCallMerged<R(!new)>(p: Policy<R>, c: Cell<R>, closing: bool, next: nat, d: nat)
    requires Control(c, closing, next) && Enabled(c, closing, CallMerged(d))
    ensures Control(DoCallMerged(p, c, d), closing, next + 1)
  {
    var c' := DoCallMerged(p, c, d);
    var phase := PhaseOf(c.machine);
    if c.machine.Some? {
      RefreshShape(p, c.machine.value, d, c.dead);
      if Drives(phase, d) {
        EntitledMoves(phase, c.tasks, c.swept, closing, next, d, c'.tasks[d], phase);
      } else {
        StrangerMoves(phase, c.tasks, c.swept, closing, next, d, c'.tasks[d]);
      }
    }
  }

  lemma ControlWorkerEnds<R(!new)>(p: Policy<R>, c: Cell<R>, closing: bool, next: nat, d: nat, o: Outcome)
    requires Control(c, closing, next) && Enabled(c, closing, WorkerEnds(d, o))
    ensures Control(Apply(p, c, closing, next, WorkerEnds(d, o)), closing, next + 1)
  {
  }

  lemma ControlFinishRound<R(!new)>(c: Cell<R>, closing: bool, next: nat, d: nat)
    requires Control(c, closing, next) && Enabled(c, closing, FinishRound(d))
    ensures Control(DoFinishRound(c, d), closing, next + 1)
  {
    hide Book;
    var c' := DoFinishRound(c, d);
    var phase := PhaseOf(c.machine);
    if Drives(phase, d) {
      EntitledMoves(phase, c.tasks, c.swept, closing, next, d, c'.tasks[d], PhaseOf(c'.machine));
    } else {
      StrangerMoves(phase, c.tasks, c.swept, closing, next, d, c'.tasks[d]);
    }
  }

  lemma ControlDeliver<R(!new)>(c: Cell<R>, closing: bool, next: nat, d: nat)
    requires Control(c, closing, next) && Enabled(c, closing, Deliver(d))
    ensures Control(DoDeliver(c, d), closing, next + 1)
  {
  }

  lemma ControlFinalize<R(!new)>(c: Cell<R>, closing: bool, next: nat, d: nat)
    requires Control(c, closing, next) && Enabled(c, closing, Finalize(d))
    ensures Control(DoFinalize(c, next, d), closing, next + 1)
  {
    var c' := DoFinalize(c, next, d);
    var phase := PhaseOf(c.machine);
    if !Drives(phase, d) {
      StrangerMoves(phase, c.tasks, c.swept, closing, next, d, c'.tasks[d]);
    } else {
      FinalizeShape(c.machine.value, d, next, c.dead);
      var s := FinalizeCompletion(c.machine.value, d, next, c.dead);
      if s.action.SpawnOwner? {
        var rest := SetPc(c.tasks, d, Returning);
        HandsOff(phase, c.tasks, c.swept, closing, next, d, rest, c'.tasks[next]);
      } else {
        EntitledMoves(phase, c.tasks, c.swept, closing, next, d, c'.tasks[d], PhaseOf(c'.machine));
      }
    }
  }

  lemma ControlOwnerStart<R(!new)>(c: Cell<R>, closing: bool, next: nat, d: nat)
    requires Control(c, closing, next) && Enabled(c, closing, OwnerStart(d))
    ensures Control(DoOwnerStart(c, d), closing, next + 1)
  {
  }

  lemma ControlDrop<R(!new)>(p: Policy<R>, c: Cell<R>, closing: bool, next: nat, d: nat, dying: set<nat>)
    requires Control(c, closing, next) && Enabled(c, closing, Drop(d, dying))
    ensures Control(DoDrop(p, c, closing, next, d, dying), closing, next + 1)
  {
    var c' := DoDrop(p, c, closing, next, d, dying);
    var phase := PhaseOf(c.machine);
    if c.machine.Some? {
      DropShape(p, c.machine.value, d, closing, next, c.dead, c.dead + dying);
    }
    if Drives(phase, d) && DriverDropped(p, c.machine.value, d, closing, next, c.dead, c.dead + dying).action.SpawnOwner? {
      HandsOff(phase, c.tasks, c.swept, closing, next, d, c.tasks - {d}, c'.tasks[next]);
    } else {
      Leaves(phase, c.tasks, c.swept, closing, next, d, PhaseOf(c'.machine));
    }
  }

  lemma ControlReturn<R(!new)>(c: Cell<R>, closing: bool, next: nat, d: nat)
    requires Control(c, closing, next) && Enabled(c, closing, Return(d))
    ensures Control(c.(tasks := c.tasks - {d}), closing, next + 1)
  {
  }

  lemma ControlSweep<R(!new)>(c: Cell<R>, closing: bool, next: nat)
    requires Control(c, closing, next) && closing
    ensures Control(DoSweep(c), closing, next + 1)
  {
  }

  lemma ControlKept<R(!new)>(p: Policy<R>, c: Cell<R>, closing: bool, next: nat, e: Event<R>)
    requires Control(c, closing, next) && Enabled(c, closing, e)
    ensures var c' := Apply(p, c, closing, next, e);
            c'.panicked || Control(c', closing, next + 1)
  {
    match e
    case Submit(r) => ControlSubmit(p, c, closing, next, r);
    case Start(d, dying) => ControlStart(p, c, closing, next, d, dying);
    case CallMerged(d) => ControlCallMerged(p, c, closing, next, d);
    case WorkerEnds(d, o) => ControlWorkerEnds(p, c, closing, next, d, o);
    case FinishRound(d) => ControlFinishRound(c, closing, next, d);
    case Deliver(d) => ControlDeliver(c, closing, next, d);
    case Finalize(d) => ControlFinalize(c, closing, next, d);
    case OwnerStart(d) => ControlOwnerStart(c, closing, next, d);
    case Drop(d, dying) => ControlDrop(p, c, closing, next, d, dying);
    case Return(d) => ControlReturn(c, closing, next, d);
    case Kill(_) =>
    case Sweep => ControlSweep(c, closing, next);
  }
}
