/**
 One path of the cached object store under concurrency: readers, currentness checks and
 conditional mutations of this database instance, mutations by other instances, eviction,
 lost replies and cancellation.

 Every event is one atomic action of a task, one linearization at the backend, or one move
 of the environment. Sequence points are allocated before the backend call they belong to.
 */
module CacheProtocol {
  import opened Sequences
  import opened CacheKnowledge

  datatype Reply = Body(bytes: Bytes, token: Token) | NotModified | Missing

  datatype ReadPc =
    | Admitting
    | Joined(flight: nat)
    | ReadQueued
    | Leading
    | Seeding
    | Seeded(seed: Option<Observation>)
    | Reading(flight: nat, seed: Option<Observation>)
    | ReadReplied(flight: nat, seed: Option<Observation>, reply: Reply, at: nat)
    | Got(observed: Observation)
    | ReadFailed
    | StillCurrent                       // a check that found the observation current
    | Changed(current: Observation)      // a check that found another state

  datatype Operation =
    | Create(value: Value, absence: Option<Observation>)
    | Replace(value: Value, expected: Observation)
    | Delete(expected: Observation)

  /** What the backend answered, with the state that was current when it did. */
  datatype Outcome =
    | Applied(at: nat, state: State)
    | NotFound(at: nat)
    | Rejected(at: nat)
    | Definite
    | InDoubt

  datatype MutationPc =
    | MutationQueued
    | Armed(cached: Option<nat>)
    | Invoked(cached: Option<nat>, point: nat)
    | MutationReplied(cached: Option<nat>, point: nat, outcome: Outcome)
    | Done(observed: Observation, point: nat, at: nat)
    | FoundMissing(observed: Observation, point: nat, at: nat)
    | Refused(point: nat, at: nat)
    | Failed

  datatype Task =
    | Reader(requirement: Option<nat>, fallback: Option<Observation>, rpc: ReadPc)
    | Mutator(op: Operation, mpc: MutationPc)

  datatype FlightOutcome = Success(fetched: Observation) | Error | Cancelled

  datatype Flight = Flight(invoked: nat, outcome: Option<FlightOutcome>)

  datatype Store = Store(
    hist: seq<State>,              // the object's states at the backend, the last one current
    clock: nat,                    // the last sequence point allocated
    born: map<nat, nat>,           // for each point, the state current when it was allocated
    known: Known,
    gate: Option<nat>,             // the task holding the path's permit
    flight: Option<nat>,           // the published read flight
    flights: seq<Flight>,
    tasks: map<nat, Task>,
    handed: set<Observation>)      // observations callers hold

  datatype Event =
    | Allocate(point: nat)
    | Foreign(state: State)
    | Evict
    | StartRead(t: nat, requirement: Option<nat>)
    | StartCheck(t: nat, requirement: Option<nat>, observed: Observation)
    | Admit(t: nat)
    | Wake(t: nat)
    | AcquireRead(t: nat)
    | Recheck(t: nat)
    | TakeSeed(t: nat)
    | Dispatch(t: nat, point: nat)
    | ServeRead(t: nat)
    | FailRead(t: nat)
    | Publish(t: nat)
    | FinishCheck(t: nat)
    | CancelRead(t: nat)
    | StartMutation(t: nat, op: Operation)
    | AcquireMutation(t: nat)
    | Invoke(t: nat, point: nat)
    | ServeMutation(t: nat, token: Token)
    | FailMutation(t: nat)
    | LoseReply(t: nat)
    | Reconcile(t: nat)
    | CancelMutation(t: nat)
    | Share(to: Observation, from: Observation)

  function Init(state: State): Store
  {
    Store([state], 0, map[0 := 0], Known(None, []), None, None, [], map[], {})
  }

  function Current(hist: seq<State>): State
    requires hist != []
  {
    hist[|hist| - 1]
  }

  // Mutations ------------------------------------------------------------------------------

  /** The exact state a mutation starts from: a revision, or absence for a create. */
  function ExpectedRevision(op: Operation): Option<Token>
  {
    match op case Create(_, _) => None case Replace(_, e) => e.revision case Delete(e) => e.revision
  }

  function ExpectedCell(op: Operation): Option<nat>
  {
    match op
    case Create(_, absence) => if absence.Some? then Some(absence.value.cell) else None
    case Replace(_, e) => Some(e.cell)
    case Delete(e) => Some(e.cell)
  }

  function ExpectedObservation(op: Operation): Option<Observation>
  {
    match op case Create(_, absence) => absence case Replace(_, e) => Some(e) case Delete(e) => Some(e)
  }

  /** A create starts from an absence; a replace or a delete from a present state. */
  predicate WellFormed(op: Operation)
  {
    match op
    case Create(_, absence) => absence.Some? ==> absence.value.revision.None?
    case Replace(_, e) => e.revision.Some?
    case Delete(e) => e.revision.Some?
  }

  /** The state a mutation leaves, under the token the backend gives it. */
  function Result(w: World, op: Operation, token: Token): State
  {
    match op
    case Create(v, _) => Present(w.encode(v), token)
    case Replace(v, _) => Present(w.encode(v), token)
    case Delete(_) => Absent
  }

  predicate ResultOf(w: World, op: Operation, s: State)
  {
    match op
    case Create(v, _) => s.Present? && s.bytes == w.encode(v)
    case Replace(v, _) => s.Present? && s.bytes == w.encode(v)
    case Delete(_) => s.Absent?
  }

  /** The backend's conditional write, create or delete, decided on the current state. */
  function ServeOutcome(w: World, op: Operation, hist: seq<State>, token: Token): Outcome
    requires hist != []
  {
    if Revision(Current(hist)) == ExpectedRevision(op) then Applied(|hist| - 1, Result(w, op, token))
    else if Current(hist).Absent? then NotFound(|hist| - 1)
    else Rejected(|hist| - 1)
  }

  // Observations a task can end with ---------------------------------------------------------

  function Handed(task: Task): set<Observation>
  {
    match task
    case Reader(_, _, Got(o)) => {o}
    case Reader(_, _, Changed(o)) => {o}
    case Mutator(_, Done(o, _, _)) => {o}
    case Mutator(_, FoundMissing(o, _, _)) => {o}
    case _ => {}
  }

  function SetTask(s: Store, t: nat, task: Task): Store
  {
    s.(tasks := s.tasks[t := task], handed := s.handed + Handed(task))
  }

  function SetRead(s: Store, t: nat, pc: ReadPc): Store
    requires t in s.tasks && s.tasks[t].Reader?
  {
    SetTask(s, t, s.tasks[t].(rpc := pc))
  }

  function SetMutation(s: Store, t: nat, pc: MutationPc): Store
    requires t in s.tasks && s.tasks[t].Mutator?
  {
    SetTask(s, t, s.tasks[t].(mpc := pc))
  }

  predicate HoldsGate(task: Task)
  {
    match task
    case Reader(_, _, pc) => pc.Leading? || pc.Seeding? || pc.Seeded? || pc.Reading? || pc.ReadReplied?
    case Mutator(_, pc) => pc.Armed? || pc.Invoked? || pc.MutationReplied?
  }

  /** The flight a leading reader publishes until it completes. */
  function LeadsFlight(task: Task): Option<nat>
  {
    match task
    case Reader(_, _, Reading(f, _)) => Some(f)
    case Reader(_, _, ReadReplied(f, _, _, _)) => Some(f)
    case _ => None
  }

  // When an event can happen -----------------------------------------------------------------

  predicate AtRead(s: Store, t: nat)
  {
    t in s.tasks && s.tasks[t].Reader?
  }

  predicate AtMutation(s: Store, t: nat)
  {
    t in s.tasks && s.tasks[t].Mutator?
  }

  predicate EntryOk(k: Known)
  {
    k.entry.Some? ==> k.entry.value.cell < |k.cells|
  }

  /** Requirements come from barriers already captured, so their bound is in the past. */
  predicate Past(s: Store, requirement: Option<nat>)
  {
    requirement.Some? ==> requirement.value <= s.clock
  }

  /** Where each event stands in the protocol. */
  predicate Offered(w: World, s: Store, e: Event)
  {
    match e
    case Allocate(point) => s.clock < point
    case Foreign(state) => TokenFits(s.hist, state)
    case Evict => true
    case StartRead(t, req) => t !in s.tasks && Past(s, req)
    case StartCheck(t, req, o) => t !in s.tasks && Past(s, req) && o in s.handed
    case Admit(t) => AtRead(s, t) && s.tasks[t].rpc.Admitting?
    case Wake(t) => AtRead(s, t) && s.tasks[t].rpc.Joined? && Settled(s.flights, s.tasks[t].rpc.flight)
    case AcquireRead(t) => AtRead(s, t) && s.tasks[t].rpc.ReadQueued? && s.gate.None?
    case Recheck(t) => AtRead(s, t) && s.tasks[t].rpc.Leading?
    case TakeSeed(t) => AtRead(s, t) && s.tasks[t].rpc.Seeding?
    case Dispatch(t, point) => AtRead(s, t) && s.tasks[t].rpc.Seeded? && s.clock < point
    case ServeRead(t) => AtRead(s, t) && s.tasks[t].rpc.Reading?
    case FailRead(t) => AtRead(s, t) && s.tasks[t].rpc.Reading?
    case Publish(t) => AtRead(s, t) && s.tasks[t].rpc.ReadReplied?
    case FinishCheck(t) => AtRead(s, t) && s.tasks[t].rpc.Got? && s.tasks[t].fallback.Some?
    case CancelRead(t) => AtRead(s, t)
    case StartMutation(t, op) =>
      && t !in s.tasks && WellFormed(op)
      && (ExpectedObservation(op).Some? ==> ExpectedObservation(op).value in s.handed)
    case AcquireMutation(t) => AtMutation(s, t) && s.tasks[t].mpc.MutationQueued? && s.gate.None?
    case Invoke(t, point) => AtMutation(s, t) && s.tasks[t].mpc.Armed? && s.clock < point
    case ServeMutation(t, token) =>
      AtMutation(s, t) && s.tasks[t].mpc.Invoked? && TokenFits(s.hist, Result(w, s.tasks[t].op, token))
    case FailMutation(t) => AtMutation(s, t) && s.tasks[t].mpc.Invoked?
    case LoseReply(t) => AtMutation(s, t) && (s.tasks[t].mpc.Invoked? || s.tasks[t].mpc.MutationReplied?)
    case Reconcile(t) => AtMutation(s, t) && s.tasks[t].mpc.MutationReplied?
    case CancelMutation(t) => AtMutation(s, t)
    case Share(to, from) => to in s.handed && from in s.handed && SameState(to, from)
  }

  /** One cell is one state; without sharing a cell, only equal revisions are. */
  predicate SameState(a: Observation, b: Observation)
  {
    a.cell == b.cell || (a.revision.Some? && a.revision == b.revision)
  }

  predicate Settled(flights: seq<Flight>, f: nat)
  {
    f < |flights| && flights[f].outcome.Some?
  }

  predicate CellOk(s: Store, o: Option<Observation>)
  {
    o.Some? ==> o.value.cell < |s.known.cells|
  }

  /** Every cell and flight the event's task refers to exists; the invariant implies this. */
  predicate Linked(s: Store, e: Event)
  {
    s.hist != [] && EntryOk(s.known) &&
    match e
    case StartCheck(_, _, o) => CellOk(s, Some(o))
    case Admit(_) => s.flight.Some? ==> s.flight.value < |s.flights|
    case Recheck(t) => t in s.tasks && s.tasks[t].Reader? ==> CellOk(s, s.tasks[t].fallback)
    case FailRead(t) => AtRead(s, t) && s.tasks[t].rpc.Reading? ==> s.tasks[t].rpc.flight < |s.flights|
    case Publish(t) =>
      AtRead(s, t) && s.tasks[t].rpc.ReadReplied? ==>
        && s.tasks[t].rpc.flight < |s.flights|
        && (s.tasks[t].rpc.reply.NotModified? ==> s.tasks[t].rpc.seed.Some? && CellOk(s, s.tasks[t].rpc.seed))
    case FinishCheck(t) =>
      AtRead(s, t) && s.tasks[t].rpc.Got? ==>
        CellOk(s, Some(s.tasks[t].rpc.observed)) && CellOk(s, s.tasks[t].fallback)
    case CancelRead(t) =>
      AtRead(s, t) && LeadsFlight(s.tasks[t]).Some? ==> LeadsFlight(s.tasks[t]).value < |s.flights|
    case Reconcile(t) =>
      AtMutation(s, t) && s.tasks[t].mpc.MutationReplied? ==>
        && (ExpectedCell(s.tasks[t].op).Some? ==> ExpectedCell(s.tasks[t].op).value < |s.known.cells|)
        && (s.tasks[t].mpc.cached.Some? ==> s.tasks[t].mpc.cached.value < |s.known.cells|)
        && (s.tasks[t].mpc.outcome.Applied? && s.tasks[t].mpc.outcome.state.Present? ==> !s.tasks[t].op.Delete?)
    case Share(to, from) => CellOk(s, Some(to)) && CellOk(s, Some(from))
    case _ => true
  }

  predicate Enabled(w: World, s: Store, e: Event)
  {
    Offered(w, s, e) && Linked(s, e)
  }

  // What an event does ------------------------------------------------------------------------

  function Allocated(s: Store, point: nat): Store
    requires s.hist != []
  {
    s.(clock := point, born := s.born[point := |s.hist| - 1])
  }

  function StartChecking(s: Store, t: nat, req: Option<nat>, o: Observation): Store
    requires Linked(s, StartCheck(t, req, o))
  {
    var cells := s.known.cells;
    if Satisfied(req, cells[o.cell].mark) then SetTask(s, t, Reader(req, Some(o), StillCurrent))
    else
      match Peek(s.known, req)
      case None => SetTask(s, t, Reader(req, Some(o), Admitting))
      case Some(current) =>
        if current.revision == o.revision then
          var advanced := Advance(cells, o.cell, cells[current.cell].mark, cells[current.cell].proof);
          SetTask(s.(known := Known(s.known.entry, advanced)), t, Reader(req, Some(o), StillCurrent))
        else SetTask(s, t, Reader(req, Some(o), Changed(current)))
  }

  function WakePc(outcome: FlightOutcome): ReadPc
  {
    match outcome case Success(o) => Got(o) case Error => ReadFailed case Cancelled => Admitting
  }

  function Rechecked(s: Store, t: nat): Store
    requires AtRead(s, t) && Linked(s, Recheck(t))
  {
    var task := s.tasks[t];
    if task.fallback.Some? && Satisfied(task.requirement, s.known.cells[task.fallback.value.cell].mark) then
      SetRead(s.(gate := None), t, Got(task.fallback.value))
    else
      match Peek(s.known, task.requirement)
      case Some(o) => SetRead(s.(gate := None), t, Got(o))
      case None => SetRead(s, t, Seeding)
  }

  function Dispatched(s: Store, t: nat, point: nat): Store
    requires s.hist != [] && AtRead(s, t) && s.tasks[t].rpc.Seeded?
  {
    var f := |s.flights|;
    SetRead(Allocated(s, point).(flight := Some(f), flights := s.flights + [Flight(point, None)]), t,
            Reading(f, s.tasks[t].rpc.seed))
  }

  function ReadReply(state: State, seed: Option<Observation>): Reply
  {
    match state
    case Absent => Missing
    case Present(b, token) =>
      if seed.Some? && seed.value.revision == Some(token) then NotModified else Body(b, token)
  }

  /** The leader's outcome is settled, its flight withdrawn and the lane released. */
  function Completed(s: Store, t: nat, f: nat, outcome: FlightOutcome, pc: ReadPc): Store
    requires AtRead(s, t) && f < |s.flights|
  {
    SetRead(s.(gate := None, flight := None, flights := s.flights[f := Flight(s.flights[f].invoked, Some(outcome))]), t, pc)
  }

  function Published(w: World, s: Store, t: nat): Store
    requires AtRead(s, t) && s.tasks[t].rpc.ReadReplied? && Linked(s, Publish(t))
  {
    var pc := s.tasks[t].rpc;
    var invoked := s.flights[pc.flight].invoked;
    match pc.reply
    case Body(b, token) =>
      (match w.decode(b)
       case None => Completed(s.(known := Known(None, s.known.cells)), t, pc.flight, Error, ReadFailed)
       case Some(v) =>
         var i := InstallFetched(s.known, token, v, Cell(Present(b, token), invoked, pc.at));
         var o := Observation(Some(token), Some(v), i.cell);
         Completed(s.(known := i.known), t, pc.flight, Success(o), Got(o)))
    case NotModified =>
      var i := ConfirmUnchanged(s.known, pc.seed.value, invoked, pc.at);
      var o := pc.seed.value.(cell := i.cell);
      Completed(s.(known := i.known), t, pc.flight, Success(o), Got(o))
    case Missing =>
      var i := InstallAbsent(s.known, invoked, pc.at);
      var o := Observation(None, None, i.cell);
      Completed(s.(known := i.known), t, pc.flight, Success(o), Got(o))
  }

  function Checked(s: Store, t: nat): Store
    requires AtRead(s, t) && s.tasks[t].rpc.Got? && s.tasks[t].fallback.Some? && Linked(s, FinishCheck(t))
  {
    var o, current := s.tasks[t].fallback.value, s.tasks[t].rpc.observed;
    if o.revision == current.revision then
      var mine, theirs := s.known.cells[o.cell], s.known.cells[current.cell];
      var once := Advance(s.known.cells, o.cell, theirs.mark, theirs.proof);
      SetRead(s.(known := Known(s.known.entry, Advance(once, current.cell, mine.mark, mine.proof))), t, StillCurrent)
    else SetRead(s, t, Changed(current))
  }

  function ReadCancelled(s: Store, t: nat): Store
    requires AtRead(s, t) && Linked(s, CancelRead(t))
  {
    var task := s.tasks[t];
    var s' := if HoldsGate(task) then s.(gate := None) else s;
    match LeadsFlight(task)
    case None => s'.(tasks := s.tasks - {t})
    case Some(f) =>
      s'.(tasks := s.tasks - {t}, flight := None,
          flights := s.flights[f := Flight(s.flights[f].invoked, Some(Cancelled))])
  }

  function Acquired(s: Store, t: nat): Store
    requires AtMutation(s, t)
  {
    var op := s.tasks[t].op;
    SetMutation(s.(gate := Some(t)), t, Armed(CaptureExpected(s.known, ExpectedRevision(op), ExpectedCell(op))))
  }

  function Served(w: World, s: Store, t: nat, token: Token): Store
    requires s.hist != [] && AtMutation(s, t) && s.tasks[t].mpc.Invoked?
  {
    var task := s.tasks[t];
    var outcome := ServeOutcome(w, task.op, s.hist, token);
    var hist := if outcome.Applied? then s.hist + [outcome.state] else s.hist;
    SetMutation(s.(hist := hist), t, MutationReplied(task.mpc.cached, task.mpc.point, outcome))
  }

  /** Installs the applied state, then advances the evidence of the state it replaced. */
  function InstallApplied(
    s: Store, op: Operation, cached: Option<nat>, point: nat, at: nat, state: State): Installed
    requires EntryOk(s.known) && (state.Present? ==> !op.Delete?)
    requires ExpectedCell(op).Some? ==> ExpectedCell(op).value < |s.known.cells|
    requires cached.Some? ==> cached.value < |s.known.cells|
  {
    var i :=
      match state
      case Absent => InstallAbsent(s.known, point, at + 1)
      case Present(_, token) => InstallFetched(s.known, token, op.value, Cell(state, point, at + 1));
    var once := AdvanceExpected(i.known.cells, ExpectedCell(op), point, at);
    Installed(Known(i.known.entry, AdvanceExpected(once, cached, point, at)), i.cell)
  }

  function InstalledObservation(op: Operation, state: State, cell: nat): Observation
  {
    match op
    case Create(v, _) => Observation(Revision(state), Some(v), cell)
    case Replace(v, _) => Observation(Revision(state), Some(v), cell)
    case Delete(_) => Observation(None, None, cell)
  }

  function Reconciled(s: Store, t: nat): Store
    requires AtMutation(s, t) && s.tasks[t].mpc.MutationReplied? && Linked(s, Reconcile(t))
  {
    var task := s.tasks[t];
    var pc := task.mpc;
    var free := s.(gate := None);
    match pc.outcome
    case Applied(at, state) =>
      var i := InstallApplied(s, task.op, pc.cached, pc.point, at, state);
      SetMutation(free.(known := i.known), t, Done(InstalledObservation(task.op, state, i.cell), pc.point, at))
    case NotFound(at) =>
      if task.op.Create? then SetMutation(free, t, Failed)
      else
        var i := InstallAbsent(s.known, pc.point, at);
        SetMutation(free.(known := i.known), t,
                    if task.op.Delete? then FoundMissing(Observation(None, None, i.cell), pc.point, at)
                    else Refused(pc.point, at))
    case Rejected(at) =>
      SetMutation(free.(known := InvalidateExpected(s.known, ExpectedRevision(task.op))), t, Refused(pc.point, at))
    case Definite => SetMutation(free, t, Failed)
    case InDoubt => SetMutation(free.(known := Known(None, s.known.cells)), t, Failed)
  }

  function MutationCancelled(s: Store, t: nat): Store
    requires AtMutation(s, t)
  {
    var s' := if HoldsGate(s.tasks[t]) then s.(gate := None, known := Known(None, s.known.cells)) else s;
    s'.(tasks := s.tasks - {t})
  }

  /** Evidence of one observation, taken over by another of the same state. */
  function Shared(s: Store, to: Observation, from: Observation): Store
    requires CellOk(s, Some(to)) && CellOk(s, Some(from))
  {
    var c := s.known.cells[from.cell];
    s.(known := Known(s.known.entry, Advance(s.known.cells, to.cell, c.mark, c.proof)))
  }

  function Apply(w: World, s: Store, e: Event): Store
    requires Enabled(w, s, e)
  {
    match e
    case Allocate(point) => Allocated(s, point)
    case Foreign(state) => s.(hist := s.hist + [state])
    case Evict => s.(known := Known(None, s.known.cells))
    case StartRead(t, req) =>
      (match Peek(s.known, req)
       case Some(o) => SetTask(s, t, Reader(req, None, Got(o)))
       case None => SetTask(s, t, Reader(req, None, Admitting)))
    case StartCheck(t, req, o) => StartChecking(s, t, req, o)
    case Admit(t) =>
      var joins := s.flight.Some? && Satisfied(s.tasks[t].requirement, s.flights[s.flight.value].invoked);
      SetRead(s, t, if joins then Joined(s.flight.value) else ReadQueued)
    case Wake(t) => SetRead(s, t, WakePc(s.flights[s.tasks[t].rpc.flight].outcome.value))
    case AcquireRead(t) => SetRead(s.(gate := Some(t)), t, Leading)
    case Recheck(t) => Rechecked(s, t)
    case TakeSeed(t) => SetRead(s, t, Seeded(PresentSeed(s.known, s.tasks[t].fallback)))
    case Dispatch(t, point) => Dispatched(s, t, point)
    case ServeRead(t) =>
      var pc := s.tasks[t].rpc;
      SetRead(s, t, ReadReplied(pc.flight, pc.seed, ReadReply(Current(s.hist), pc.seed), |s.hist| - 1))
    case FailRead(t) => Completed(s, t, s.tasks[t].rpc.flight, Error, ReadFailed)
    case Publish(t) => Published(w, s, t)
    case FinishCheck(t) => Checked(s, t)
    case CancelRead(t) => ReadCancelled(s, t)
    case StartMutation(t, op) => SetTask(s, t, Mutator(op, MutationQueued))
    case AcquireMutation(t) => Acquired(s, t)
    case Invoke(t, point) => SetMutation(Allocated(s, point), t, Invoked(s.tasks[t].mpc.cached, point))
    case ServeMutation(t, token) => Served(w, s, t, token)
    case FailMutation(t) =>
      SetMutation(s, t, MutationReplied(s.tasks[t].mpc.cached, s.tasks[t].mpc.point, Definite))
    case LoseReply(t) =>
      SetMutation(s, t, MutationReplied(s.tasks[t].mpc.cached, s.tasks[t].mpc.point, InDoubt))
    case Reconcile(t) => Reconciled(s, t)
    case CancelMutation(t) => MutationCancelled(s, t)
    case Share(to, from) => Shared(s, to, from)
  }
}
