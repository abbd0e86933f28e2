/** What holds in every reachable state of a path: all evidence is true, all work is accounted for. */
module CacheInvariant {
  import opened Sequences
  import opened CacheKnowledge
  import opened CacheProtocol

  /** Points know the state that was current when they were allocated, in order. */
  ghost predicate Clocked(s: Store)
  {
    && s.hist != []
    && s.clock in s.born
    && (forall p :: p in s.born ==> p <= s.clock && s.born[p] < |s.hist|)
    && (forall p, q :: p in s.born && q in s.born && p <= q ==> s.born[p] <= s.born[q])
  }

  ghost predicate FlightOk(w: World, s: Store, f: Flight)
  {
    && f.invoked in s.born
    && (f.outcome.Some? && f.outcome.value.Success? ==>
          && Faithful(w, s.known.cells, f.outcome.value.fetched)
          && s.known.cells[f.outcome.value.fetched.cell].mark >= f.invoked)
  }

  ghost predicate FlightsOk(w: World, s: Store)
  {
    forall f :: 0 <= f < |s.flights| ==> FlightOk(w, s, s.flights[f])
  }

  ghost predicate SeedOk(w: World, s: Store, seed: Option<Observation>)
  {
    seed.Some? ==> Faithful(w, s.known.cells, seed.value) && seed.value.revision.Some?
  }

  /** A reply describes the state that was current when the backend served it. */
  ghost predicate ReplyOk(w: World, s: Store, seed: Option<Observation>, reply: Reply, at: nat)
  {
    && at < |s.hist|
    && match reply
       case Body(b, token) => s.hist[at] == Present(b, token)
       case Missing => s.hist[at] == Absent
       case NotModified =>
         seed.Some? && seed.value.cell < |s.known.cells| && s.hist[at] == s.known.cells[seed.value.cell].state
  }

  ghost predicate InvokedOk(s: Store, requirement: Option<nat>, f: nat)
  {
    f < |s.flights| && s.flights[f].invoked in s.born && Satisfied(requirement, s.flights[f].invoked)
  }

  ghost predicate Fresh(w: World, s: Store, requirement: Option<nat>, o: Observation)
  {
    Faithful(w, s.known.cells, o) && Satisfied(requirement, s.known.cells[o.cell].mark)
  }

  ghost predicate ReaderOk(w: World, s: Store, requirement: Option<nat>, fallback: Option<Observation>, pc: ReadPc)
  {
    && Past(s, requirement)
    && (fallback.Some? ==> Faithful(w, s.known.cells, fallback.value))
    && match pc
       case Joined(f) => InvokedOk(s, requirement, f)
       case Seeded(seed) => SeedOk(w, s, seed)
       case Reading(f, seed) => InvokedOk(s, requirement, f) && SeedOk(w, s, seed)
       case ReadReplied(f, seed, reply, at) =>
         && InvokedOk(s, requirement, f) && SeedOk(w, s, seed) && ReplyOk(w, s, seed, reply, at)
         && s.born[s.flights[f].invoked] <= at
       case Got(o) => Fresh(w, s, requirement, o)
       case StillCurrent => fallback.Some? && Fresh(w, s, requirement, fallback.value)
       case Changed(o) =>
         Fresh(w, s, requirement, o) && fallback.Some? && o.revision != fallback.value.revision
       case _ => true
  }

  ghost predicate CapturedOk(w: World, s: Store, op: Operation, cached: Option<nat>)
  {
    cached.Some? ==>
      cached.value < |s.known.cells| && Revision(s.known.cells[cached.value].state) == ExpectedRevision(op)
  }

  /** The transition from the expected state to the operation's result, after the point. */
  ghost predicate Transition(w: World, s: Store, op: Operation, point: nat, at: nat, state: State)
  {
    && point in s.born && s.born[point] <= at && at + 1 < |s.hist|
    && Revision(s.hist[at]) == ExpectedRevision(op)
    && s.hist[at + 1] == state && ResultOf(w, op, state)
  }

  /** The state with that index was current at or after the point. */
  ghost predicate Since(s: Store, point: nat, at: nat)
  {
    point in s.born && s.born[point] <= at < |s.hist|
  }

  ghost predicate OutcomeOk(w: World, s: Store, op: Operation, point: nat, outcome: Outcome)
  {
    match outcome
    case Applied(at, state) => Transition(w, s, op, point, at, state)
    case NotFound(at) => !op.Create? && Since(s, point, at) && s.hist[at] == Absent
    case Rejected(at) =>
      Since(s, point, at) && s.hist[at].Present? && Revision(s.hist[at]) != ExpectedRevision(op)
    case _ => true
  }

  ghost predicate MutatorOk(w: World, s: Store, op: Operation, pc: MutationPc)
  {
    && WellFormed(op)
    && (ExpectedObservation(op).Some? ==> Faithful(w, s.known.cells, ExpectedObservation(op).value))
    && match pc
       case Armed(cached) => CapturedOk(w, s, op, cached)
       case Invoked(cached, point) => CapturedOk(w, s, op, cached) && point in s.born
       case MutationReplied(cached, point, outcome) =>
         CapturedOk(w, s, op, cached) && point in s.born && OutcomeOk(w, s, op, point, outcome)
       case Done(o, point, at) =>
         && Faithful(w, s.known.cells, o) && s.known.cells[o.cell].mark >= point
         && Transition(w, s, op, point, at, s.known.cells[o.cell].state)
       case FoundMissing(o, point, at) =>
         && Faithful(w, s.known.cells, o) && o.revision.None? && op.Delete?
         && Since(s, point, at) && s.hist[at] == Absent
       case Refused(point, at) =>
         && Since(s, point, at) && Revision(s.hist[at]) != ExpectedRevision(op)
         && (op.Delete? ==> s.hist[at].Present?)
       case _ => true
  }

  ghost predicate TaskOk(w: World, s: Store, task: Task)
  {
    match task
    case Reader(req, fallback, pc) => ReaderOk(w, s, req, fallback, pc)
    case Mutator(op, pc) => MutatorOk(w, s, op, pc)
  }

  ghost predicate TasksOk(w: World, s: Store)
  {
    forall t :: t in s.tasks ==> TaskOk(w, s, s.tasks[t])
  }

  ghost predicate HandedOk(w: World, s: Store)
  {
    forall o :: o in s.handed ==> Faithful(w, s.known.cells, o)
  }

  /** One task at a time is in the lane, and a published flight is that task's, unsettled. */
  ghost predicate Lane(s: Store)
  {
    && (forall t :: t in s.tasks ==> (HoldsGate(s.tasks[t]) <==> s.gate == Some(t)))
    && (s.gate.Some? ==> s.gate.value in s.tasks)
    && s.flight == (if s.gate.Some? then LeadsFlight(s.tasks[s.gate.value]) else None)
    && (s.flight.Some? ==> s.flight.value < |s.flights| && s.flights[s.flight.value].outcome.None?)
  }

  ghost predicate Inv(w: World, s: Store)
  {
    && Clocked(s)
    && Sound(w, s.hist, s.born, s.known)
    && FlightsOk(w, s)
    && TasksOk(w, s)
    && HandedOk(w, s)
    && Lane(s)
  }

  // Growth: nothing that has been established is lost ----------------------------------------

  /** History, points, flights and evidence only grow; in particular no watermark regresses. */
  ghost predicate Grows(s: Store, s': Store)
  {
    && s.hist <= s'.hist
    && s.clock <= s'.clock
    && (forall p :: p in s.born ==> p in s'.born && s'.born[p] == s.born[p])
    && CellsGrow(s.known.cells, s'.known.cells)
    && |s.flights| <= |s'.flights|
    && (forall f :: 0 <= f < |s.flights| ==> s'.flights[f].invoked == s.flights[f].invoked)
  }

  lemma ReaderGrows(w: World, s: Store, s': Store, req: Option<nat>, fallback: Option<Observation>, pc: ReadPc)
    requires ReaderOk(w, s, req, fallback, pc) && Grows(s, s')
    ensures ReaderOk(w, s', req, fallback, pc)
  {
  }

  lemma MutatorGrows(w: World, s: Store, s': Store, op: Operation, pc: MutationPc)
    requires MutatorOk(w, s, op, pc) && Grows(s, s')
    ensures MutatorOk(w, s', op, pc)
  {
    match pc
    case Done(o, point, at) => FaithfulGrows(w, s.known.cells, s'.known.cells, o);
    case FoundMissing(o, _, _) => FaithfulGrows(w, s.known.cells, s'.known.cells, o);
    case _ =>
  }

  lemma TasksGrow(w: World, s: Store, s': Store)
    requires TasksOk(w, s) && Grows(s, s') && s'.tasks == s.tasks
    ensures TasksOk(w, s')
  {
    hide ReaderOk, MutatorOk, Grows;
    forall t | t in s.tasks ensures TaskOk(w, s', s.tasks[t]) {
      match s.tasks[t]
      case Reader(req, fallback, pc) => ReaderGrows(w, s, s', req, fallback, pc);
      case Mutator(op, pc) => MutatorGrows(w, s, s', op, pc);
    }
  }

  lemma FlightsGrow(w: World, s: Store, s': Store)
    requires FlightsOk(w, s) && Grows(s, s') && s'.flights == s.flights
    ensures FlightsOk(w, s')
  {
    forall f | 0 <= f < |s.flights| ensures FlightOk(w, s', s.flights[f]) {
      assert FlightOk(w, s, s.flights[f]);
    }
  }

  lemma HandedGrows(w: World, s: Store, s': Store)
    requires HandedOk(w, s) && CellsGrow(s.known.cells, s'.known.cells) && s'.handed == s.handed
    ensures HandedOk(w, s')
  {
  }

  /**
   The shape of every event: the shared state `mid` grows and stays true, and then one task
   moves to a place that fits it.
   */
  lemma Settles(w: World, s: Store, mid: Store, t: nat, task: Task)
    requires Inv(w, s) && Grows(s, mid) && mid.tasks == s.tasks && mid.handed == s.handed
    requires Clocked(mid) && Sound(w, mid.hist, mid.born, mid.known) && FlightsOk(w, mid)
    requires TaskOk(w, mid, task) && Lane(SetTask(mid, t, task))
    ensures Inv(w, SetTask(mid, t, task)) && Grows(s, SetTask(mid, t, task))
  {
    hide Clocked, Sound, Lane, Grows;
    var s' := SetTask(mid, t, task);
    TasksGrow(w, s, mid);
    HandedSettles(w, s, mid, t, task);
    SameShared(w, mid, s');
    GrowsSame(s, mid, s');
  }

  lemma GrowsSame(s: Store, mid: Store, s': Store)
    requires Grows(s, mid)
    requires s'.hist == mid.hist && s'.clock == mid.clock && s'.born == mid.born
    requires s'.known == mid.known && s'.flights == mid.flights
    ensures Grows(s, s')
  {
  }

  lemma HandedSettles(w: World, s: Store, mid: Store, t: nat, task: Task)
    requires HandedOk(w, s) && Grows(s, mid) && mid.handed == s.handed && TaskOk(w, mid, task)
    ensures HandedOk(w, SetTask(mid, t, task))
  {
    HandedGrows(w, s, mid);
  }

  /** Tasks, handed observations and the lane do not enter the shared invariants. */
  lemma SameShared(w: World, s: Store, s': Store)
    requires s'.hist == s.hist && s'.clock == s.clock && s'.born == s.born
    requires s'.known == s.known && s'.flights == s.flights
    ensures Clocked(s) ==> Clocked(s')
    ensures FlightsOk(w, s) ==> FlightsOk(w, s')
    ensures forall task :: TaskOk(w, s, task) ==> TaskOk(w, s', task)
  {
    forall task | TaskOk(w, s, task) ensures TaskOk(w, s', task) {
      SameTask(w, s, s', task);
    }
    if FlightsOk(w, s) {
      forall f | 0 <= f < |s.flights| ensures FlightOk(w, s', s.flights[f]) {
        assert FlightOk(w, s, s.flights[f]);
      }
    }
  }

  lemma SameTask(w: World, s: Store, s': Store, task: Task)
    requires s'.hist == s.hist && s'.clock == s.clock && s'.born == s.born
    requires s'.known == s.known && s'.flights == s.flights
    requires TaskOk(w, s, task)
    ensures TaskOk(w, s', task)
  {
  }
}
