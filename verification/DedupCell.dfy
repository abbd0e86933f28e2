/**
 One key under concurrency: its machine (when the key is in its shard's map), the driver
 tasks working on it, and where every member ever submitted has gone.

 Every event is one critical section of the shard lock, one delivery outside the lock, or
 one move of the environment. Interleaving is unrestricted: an event may hit any task that
 is at the matching program point.
 */
module DedupCell {
  import opened Sequences
  import opened DedupQueue
  import opened DedupMachine

  /** Where a driver task is. Only in `InWorker` is it suspended, so only there can it be dropped. */
  datatype Pc =
    | AtStart
    | InWorker(signal: nat)
    | RoundOver(signal: nat, outcome: Outcome)
    | Delivering(result: Option<nat>)
    | Finalizing
    | Reserved
    | Returning

  /**
   An inline caller driving its own submission `own`, or a spawned owner. `seen` is what
   the worker's last `merged()` call folded (the formed batch, before the first call).
   An owner holds its permit for as long as it is a task, from its reservation on.
   */
  datatype Task<R> = Task(kind: DriverKind, own: nat, pc: Pc, seen: seq<Member<R>>)

  /** Where members have gone once they leave the queue. */
  datatype Log<R(==)> = Log(
    submitted: set<Member<R>>,
    pending: seq<Member<R>>,            // taken by a finished round, not yet sent
    delivered: multiset<Member<R>>,
    results: map<nat, nat>,             // the result sent on each member's channel
    discarded: multiset<Member<R>>,     // pruned: the sender was dropped
    retired: multiset<Member<R>>)       // dropped together with a removed machine

  datatype Cell<R(==)> = Cell(
    machine: Option<Machine<R>>,
    tasks: map<nat, Task<R>>,
    fired: set<nat>,                    // round signals that have been cancelled
    dead: set<nat>,                     // members whose receiver has been dropped
    log: Log<R>,
    swept: bool,                        // `close` has cleared this key's shard
    panicked: bool)                     // a transition hit a batch that does not fold

  datatype Event<R> =
    | Submit(request: R)
    | Start(d: nat, dying: set<nat>)
    | CallMerged(d: nat)
    | WorkerEnds(d: nat, outcome: Outcome)
    | FinishRound(d: nat)
    | Deliver(d: nat)
    | Finalize(d: nat)
    | OwnerStart(d: nat)
    | Drop(d: nat, dying: set<nat>)
    | Return(d: nat)
    | Kill(id: nat)
    | Sweep

  ghost function EmptyCell<R(!new)>(): Cell<R>
  {
    Cell(None, map[], {}, {}, Log({}, [], multiset{}, map[], multiset{}, multiset{}), false, false)
  }

  /** Members whose receiver an inline driver's own future still holds. */
  ghost function Held<R(!new)>(c: Cell<R>): set<nat>
  {
    set d | d in c.tasks && c.tasks[d].kind == Inline :: c.tasks[d].own
  }

  ghost function Ids<R(!new)>(ms: seq<Member<R>>): set<nat>
  {
    set m | m in ms :: m.id
  }

  ghost predicate At<R(!new)>(c: Cell<R>, d: nat, pc: Pc)
  {
    d in c.tasks && c.tasks[d].pc == pc
  }

  ghost predicate Suspended<R(!new)>(c: Cell<R>, d: nat)
  {
    d in c.tasks && c.tasks[d].pc.InWorker?
  }

  /** Dying members had a receiver to drop, and no running inline driver holds it. */
  ghost predicate Killable<R(!new)>(c: Cell<R>, ids: set<nat>)
  {
    && ids !! Held(c)
    && forall id :: id in ids ==> exists m :: m in c.log.submitted && m.id == id
  }

  ghost predicate Enabled<R(!new)>(c: Cell<R>, closing: bool, e: Event<R>)
  {
    !c.panicked &&
    match e
    case Submit(_) => true
    case Start(d, dying) => At(c, d, AtStart) && Killable(c, dying)
    case CallMerged(d) => Suspended(c, d)
    case WorkerEnds(d, outcome) =>
      && Suspended(c, d)
      && (outcome.Shutdown? ==> closing)
      && (outcome.Liveness? ==> c.tasks[d].pc.signal in c.fired)
    case FinishRound(d) => d in c.tasks && c.tasks[d].pc.RoundOver?
    case Deliver(d) => d in c.tasks && c.tasks[d].pc.Delivering?
    case Finalize(d) => At(c, d, Finalizing)
    case OwnerStart(d) => At(c, d, Reserved)
    case Drop(d, dying) => Suspended(c, d) && Killable(c, dying)
    case Return(d) => At(c, d, Returning)
    case Kill(id) => Killable(c, {id})
    case Sweep => closing
  }

  function SetPc<R>(tasks: map<nat, Task<R>>, d: nat, pc: Pc): map<nat, Task<R>>
    requires d in tasks
  {
    tasks[d := tasks[d].(pc := pc)]
  }

  // Committing a transition while the shard is locked -----------------------------------

  function Kept<R>(s: Step<R>): Option<Machine<R>>
  {
    if s.action.Remove? then None else Some(s.machine)
  }

  /** A handoff reserves its owner, permit included, before the lock is released. */
  function Reserve<R>(tasks: map<nat, Task<R>>, action: Action): map<nat, Task<R>>
  {
    if action.SpawnOwner? then tasks[action.owner := Task(Owner, action.owner, Reserved, [])] else tasks
  }

  function Cancel<R>(fired: set<nat>, reply: Reply<R>): set<nat>
  {
    if reply.Aborted? then fired + {reply.signal} else fired
  }

  ghost function Book<R(!new)>(log: Log<R>, s: Step<R>): Log<R>
  {
    Log(log.submitted, log.pending + s.delivery, log.delivered, log.results, log.discarded + multiset(s.discarded),
        log.retired + if s.action.Remove? then Members(s.machine.queue) else multiset{})
  }

  ghost function Commit<R(!new)>(c: Cell<R>, tasks: map<nat, Task<R>>, dead: set<nat>, s: Step<R>): Cell<R>
  {
    Cell(Kept(s), Reserve(tasks, s.action), Cancel(c.fired, s.reply), dead, Book(c.log, s), c.swept, s.reply.Panicked?)
  }

  /** The key is not in the map: only the task's own position changes. */
  ghost function Absent<R(!new)>(c: Cell<R>, tasks: map<nat, Task<R>>, dead: set<nat>): Cell<R>
  {
    Cell(None, tasks, c.fired, dead, c.log, c.swept, c.panicked)
  }

  // Events --------------------------------------------------------------------------------

  ghost function DoSubmit<R(!new)>(p: Policy<R>, c: Cell<R>, next: nat, request: R): Cell<R>
  {
    var member := Member(next, request);
    var log := c.log.(submitted := c.log.submitted + {member});
    match c.machine
    case Some(m) => Cell(Some(DedupMachine.Submit(p, m, member)), c.tasks, c.fired, c.dead, log, c.swept, c.panicked)
    case None =>
      Cell(Some(NewMachine(member, next)), c.tasks[next := Task(Inline, next, AtStart, [])],
           c.fired, c.dead, log, c.swept, c.panicked)
  }

  function StartTask<R>(t: Task<R>, s: Step<R>): Task<R>
  {
    if s.reply.Started? then t.(pc := InWorker(s.reply.signal), seen := s.machine.queue.batch)
    else t.(pc := Returning)
  }

  ghost function DoStart<R(!new)>(
    p: Policy<R>, c: Cell<R>, closing: bool, next: nat, d: nat, dying: set<nat>): Cell<R>
    requires d in c.tasks
  {
    var later := c.dead + dying;
    match c.machine
    case None => Absent(c, SetPc(c.tasks, d, Returning), later)
    case Some(m) =>
      var s := StartRound(p, m, d, closing, next, c.dead, later);
      Commit(c, c.tasks[d := StartTask(c.tasks[d], s)], later, s)
  }

  /** What the worker's `merged()` call folded: the batch it was told about. */
  function Folded<R>(s: Step<R>): seq<Member<R>>
  {
    if s.reply.Request? then s.machine.queue.batch else []
  }

  ghost function DoCallMerged<R(!new)>(p: Policy<R>, c: Cell<R>, d: nat): Cell<R>
    requires d in c.tasks
  {
    match c.machine
    case None => c
    case Some(m) =>
      var s := Refresh(p, m, d, c.dead);
      Commit(c, c.tasks[d := c.tasks[d].(seen := Folded(s))], c.dead, s)
  }

  function FinishPc<R>(s: Step<R>, outcome: Outcome): Pc
  {
    if s.reply.Finished? then Delivering(if outcome.Done? then Some(outcome.result) else None) else Returning
  }

  ghost function DoFinishRound<R(!new)>(c: Cell<R>, d: nat): Cell<R>
    requires d in c.tasks && c.tasks[d].pc.RoundOver?
  {
    var outcome := c.tasks[d].pc.outcome;
    match c.machine
    case None => Absent(c, SetPc(c.tasks, d, Returning), c.dead)
    case Some(m) =>
      var s := RoundFinished(m, d, outcome);
      Commit(c, SetPc(c.tasks, d, FinishPc(s, outcome)), c.dead, s)
  }

  /** Sends the round's result to every member taken by the round. */
  ghost function Send<R(!new)>(log: Log<R>, result: Option<nat>): Log<R>
  {
    match result
    case None => log
    case Some(r) =>
      Log(log.submitted, [], log.delivered + multiset(log.pending),
          log.results + (map id | id in Ids(log.pending) :: r), log.discarded, log.retired)
  }

  ghost function DoDeliver<R(!new)>(c: Cell<R>, d: nat): Cell<R>
    requires d in c.tasks && c.tasks[d].pc.Delivering?
  {
    Cell(c.machine, SetPc(c.tasks, d, Finalizing), c.fired, c.dead, Send(c.log, c.tasks[d].pc.result), c.swept, c.panicked)
  }

  ghost function DoFinalize<R(!new)>(c: Cell<R>, next: nat, d: nat): Cell<R>
    requires d in c.tasks
  {
    match c.machine
    case None => Absent(c, SetPc(c.tasks, d, Returning), c.dead)
    case Some(m) =>
      var s := FinalizeCompletion(m, d, next, c.dead);
      Commit(c, SetPc(c.tasks, d, if s.reply.Again? then AtStart else Returning), c.dead, s)
  }

  ghost function DoOwnerStart<R(!new)>(c: Cell<R>, d: nat): Cell<R>
    requires d in c.tasks
  {
    match c.machine
    case None => Absent(c, SetPc(c.tasks, d, Returning), c.dead)
    case Some(m) =>
      var s := OwnerStarted(m, d);
      Commit(c, SetPc(c.tasks, d, if s.reply.Accepted? then AtStart else Returning), c.dead, s)
  }

  ghost function DoDrop<R(!new)>(
    p: Policy<R>, c: Cell<R>, closing: bool, next: nat, d: nat, dying: set<nat>): Cell<R>
  {
    var later := c.dead + dying;
    match c.machine
    case None => Absent(c, c.tasks - {d}, later)
    case Some(m) => Commit(c, c.tasks - {d}, later, DriverDropped(p, m, d, closing, next, c.dead, later))
  }

  ghost function DoSweep<R(!new)>(c: Cell<R>): Cell<R>
  {
    match c.machine
    case None => c.(swept := true)
    case Some(m) => Commit(c, c.tasks, c.dead, Close(m)).(swept := true, panicked := c.panicked)
  }

  ghost function Apply<R(!new)>(p: Policy<R>, c: Cell<R>, closing: bool, next: nat, e: Event<R>): Cell<R>
    requires Enabled(c, closing, e)
  {
    match e
    case Submit(request) => DoSubmit(p, c, next, request)
    case Start(d, dying) => DoStart(p, c, closing, next, d, dying)
    case CallMerged(d) => DoCallMerged(p, c, d)
    case WorkerEnds(d, outcome) => c.(tasks := SetPc(c.tasks, d, RoundOver(c.tasks[d].pc.signal, outcome)))
    case FinishRound(d) => DoFinishRound(c, d)
    case Deliver(d) => DoDeliver(c, d)
    case Finalize(d) => DoFinalize(c, next, d)
    case OwnerStart(d) => DoOwnerStart(c, d)
    case Drop(d, dying) => DoDrop(p, c, closing, next, d, dying)
    case Return(d) => c.(tasks := c.tasks - {d})
    case Kill(id) => c.(dead := c.dead + {id})
    case Sweep => DoSweep(c)
  }

  /** The event is not a round start that meets a torn seed. */
  ghost predicate NotTorn<R(!new)>(c: Cell<R>, e: Event<R>)
  {
    e.Start? && c.machine.Some? && c.machine.value.phase.Ready? && c.machine.value.phase.driver.id == e.d ==>
      !TornSeed(c.machine.value.queue, c.dead, c.dead + e.dying)
  }
}
