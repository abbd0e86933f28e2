/** Every event keeps the invariant and loses nothing that was established. */
module CacheSteps {
  import opened Sequences
  import opened CacheKnowledge
  import opened CacheProtocol
  import opened CacheInvariant

  ghost predicate Keeps(w: World, s: Store, s': Store)
  {
    Inv(w, s') && Grows(s, s')
  }

  // The environment --------------------------------------------------------------------------

  lemma SharedKeeps(w: World, s: Store, s': Store)
    requires Inv(w, s) && Grows(s, s') && Clocked(s') && Sound(w, s'.hist, s'.born, s'.known)
    requires s'.tasks == s.tasks && s'.handed == s.handed
    requires s'.gate == s.gate && s'.flight == s.flight && s'.flights == s.flights
    ensures Keeps(w, s, s')
  {
    hide Clocked, Sound, TasksOk, FlightsOk, HandedOk;
    TasksGrow(w, s, s');
    FlightsGrow(w, s, s');
    HandedGrows(w, s, s');
  }

  /** A point allocated now belongs to the state that is current now. */
  lemma AllocatedOk(w: World, s: Store, point: nat)
    requires Clocked(s) && Sound(w, s.hist, s.born, s.known) && FlightsOk(w, s) && s.clock < point
    ensures var s' := Allocated(s, point);
            Grows(s, s') && Clocked(s') && Sound(w, s'.hist, s'.born, s'.known) && FlightsOk(w, s')
  {
    FlightsGrow(w, s, Allocated(s, point));
  }

  lemma StaysDistinctive(hist: seq<State>, state: State)
    requires Distinctive(hist) && TokenFits(hist, state)
    ensures Distinctive(hist + [state])
  {
    forall i | 0 <= i < |hist + [state]| ensures TokenFits(hist + [state], (hist + [state])[i]) {
      if i < |hist| {
        assert TokenFits(hist, hist[i]);
      }
    }
  }

  lemma ExtendedOk(w: World, s: Store, state: State)
    requires Clocked(s) && Sound(w, s.hist, s.born, s.known) && FlightsOk(w, s) && TokenFits(s.hist, state)
    ensures var s' := s.(hist := s.hist + [state]);
            Grows(s, s') && Clocked(s') && Sound(w, s'.hist, s'.born, s'.known) && FlightsOk(w, s')
  {
    StaysDistinctive(s.hist, state);
    FlightsGrow(w, s, s.(hist := s.hist + [state]));
  }

  lemma EnvironmentKeeps(w: World, s: Store, e: Event)
    requires Inv(w, s) && Enabled(w, s, e) && (e.Allocate? || e.Foreign? || e.Evict?)
    ensures Keeps(w, s, Apply(w, s, e))
  {
    hide Clocked, Sound, TasksOk, FlightsOk, HandedOk, Keeps;
    match e
    case Allocate(point) =>
      AllocatedOk(w, s, point);
      SharedKeeps(w, s, Allocated(s, point));
    case Foreign(state) =>
      ExtendedOk(w, s, state);
      SharedKeeps(w, s, s.(hist := s.hist + [state]));
    case Evict =>
      Evicted(w, s);
      SharedKeeps(w, s, s.(known := Known(None, s.known.cells)));
  }

  lemma Evicted(w: World, s: Store)
    requires Clocked(s) && Sound(w, s.hist, s.born, s.known) && FlightsOk(w, s)
    ensures var s' := s.(known := Known(None, s.known.cells));
            Grows(s, s') && Clocked(s') && Sound(w, s'.hist, s'.born, s'.known) && FlightsOk(w, s')
  {
    FlightsGrow(w, s, s.(known := Known(None, s.known.cells)));
  }

  lemma Same(s: Store)
    ensures Grows(s, s)
  {
  }

  /** Only the task moves; nothing shared changes but, possibly, who holds the lane. */
  lemma OnlyTaskMoves(w: World, s: Store, t: nat, task: Task, gate: Option<nat>)
    requires Inv(w, s) && TaskOk(w, s, task) && Lane(SetTask(s.(gate := gate), t, task))
    ensures Keeps(w, s, SetTask(s.(gate := gate), t, task))
  {
    hide TaskOk, Lane, FlightsOk, HandedOk, TasksOk;
    var mid := s.(gate := gate);
    Same(s);
    SameShared(w, s, mid);
    Settles(w, s, mid, t, task);
  }

  // Readers ----------------------------------------------------------------------------------

  lemma OutsideLane(s: Store, mid: Store, t: nat, task: Task)
    requires Lane(s) && mid.tasks == s.tasks && mid.gate == s.gate && mid.flight == s.flight && mid.flights == s.flights
    requires !HoldsGate(task) && (t in s.tasks ==> !HoldsGate(s.tasks[t]))
    ensures Lane(SetTask(mid, t, task))
  {
  }

  /** A task that starts outside the lane. */
  lemma NewTask(w: World, s: Store, t: nat, task: Task)
    requires Inv(w, s) && t !in s.tasks && TaskOk(w, s, task) && !HoldsGate(task)
    ensures Keeps(w, s, SetTask(s, t, task))
  {
    hide TaskOk, Clocked, Sound, TasksOk, FlightsOk, HandedOk, Keeps;
    OnlyTaskMoves(w, s, t, task, s.gate);
  }

  lemma StartReadKeeps(w: World, s: Store, t: nat, req: Option<nat>)
    requires Inv(w, s) && Enabled(w, s, StartRead(t, req))
    ensures Keeps(w, s, Apply(w, s, StartRead(t, req)))
  {
    hide Keeps, TasksOk, HandedOk, FlightsOk, Clocked, Lane, Distinctive;
    match Peek(s.known, req)
    case Some(o) => NewTask(w, s, t, Reader(req, None, Got(o)));
    case None => NewTask(w, s, t, Reader(req, None, Admitting));
  }

  /** Evidence passes between two observations of one revision. */
  lemma EvidencePasses(w: World, s: Store, to: Observation, from: Observation)
    requires Sound(w, s.hist, s.born, s.known) && FlightsOk(w, s)
    requires Faithful(w, s.known.cells, to) && Faithful(w, s.known.cells, from) && to.revision == from.revision
    ensures var cells := Advance(s.known.cells, to.cell, s.known.cells[from.cell].mark, s.known.cells[from.cell].proof);
            var s' := s.(known := Known(s.known.entry, cells));
            Grows(s, s') && Sound(w, s'.hist, s'.born, s'.known) && FlightsOk(w, s')
  {
    SameRevisionSameState(w, s.hist, s.born, s.known.cells, to, from);
    var mark, proof := s.known.cells[from.cell].mark, s.known.cells[from.cell].proof;
    AdvanceGrows(s.known.cells, to.cell, mark, proof);
    AdvanceTruthful(s.hist, s.born, s.known.cells, to.cell, mark, proof);
    FlightsGrow(w, s, s.(known := Known(s.known.entry, Advance(s.known.cells, to.cell, mark, proof))));
  }

  lemma CheckHits(w: World, s: Store, t: nat, req: Option<nat>, o: Observation, current: Observation)
    requires ValidWorld(w) && Inv(w, s) && t !in s.tasks && Past(s, req)
    requires Faithful(w, s.known.cells, o) && Fresh(w, s, req, current) && current.revision == o.revision
    ensures var c := s.known.cells[current.cell];
            var mid := s.(known := Known(s.known.entry, Advance(s.known.cells, o.cell, c.mark, c.proof)));
            Keeps(w, s, SetTask(mid, t, Reader(req, Some(o), StillCurrent)))
  {
    hide TasksOk, HandedOk, FlightsOk, Clocked, Sound;
    EvidencePasses(w, s, o, current);
    var c := s.known.cells[current.cell];
    var mid := s.(known := Known(s.known.entry, Advance(s.known.cells, o.cell, c.mark, c.proof)));
    SameClock(s, mid);
    Settles(w, s, mid, t, Reader(req, Some(o), StillCurrent));
  }

  lemma StartCheckKeeps(w: World, s: Store, t: nat, req: Option<nat>, o: Observation)
    requires ValidWorld(w) && Inv(w, s) && Enabled(w, s, StartCheck(t, req, o))
    ensures Keeps(w, s, Apply(w, s, StartCheck(t, req, o)))
  {
    hide Keeps, TasksOk, FlightsOk, Clocked, AllTruthful, Distinctive, Lane;
    var cells := s.known.cells;
    assert Faithful(w, cells, o);
    if Satisfied(req, cells[o.cell].mark) {
      NewTask(w, s, t, Reader(req, Some(o), StillCurrent));
    } else {
      match Peek(s.known, req)
      case None => NewTask(w, s, t, Reader(req, Some(o), Admitting));
      case Some(current) =>
        if current.revision == o.revision {
          CheckHits(w, s, t, req, o, current);
        } else {
          NewTask(w, s, t, Reader(req, Some(o), Changed(current)));
        }
    }
  }

  lemma SameClock(s: Store, s': Store)
    requires Clocked(s) && s'.hist == s.hist && s'.clock == s.clock && s'.born == s.born
    ensures Clocked(s')
  {
  }

  lemma AdmitKeeps(w: World, s: Store, t: nat)
    requires Inv(w, s) && Enabled(w, s, Admit(t))
    ensures Keeps(w, s, Apply(w, s, Admit(t)))
  {
    hide Keeps, HandedOk, Clocked, Sound;
    var task := s.tasks[t];
    assert TaskOk(w, s, task);
    var joins := s.flight.Some? && Satisfied(task.requirement, s.flights[s.flight.value].invoked);
    if joins {
      assert FlightOk(w, s, s.flights[s.flight.value]);
    }
    OnlyTaskMoves(w, s, t, task.(rpc := if joins then Joined(s.flight.value) else ReadQueued), s.gate);
  }

  lemma WakeKeeps(w: World, s: Store, t: nat)
    requires Inv(w, s) && Enabled(w, s, Wake(t))
    ensures Keeps(w, s, Apply(w, s, Wake(t)))
  {
    hide Keeps, HandedOk, Clocked, Sound;
    var task := s.tasks[t];
    assert TaskOk(w, s, task);
    var f := s.flights[task.rpc.flight];
    assert FlightOk(w, s, f);
    OnlyTaskMoves(w, s, t, task.(rpc := WakePc(f.outcome.value)), s.gate);
  }

  lemma AcquireReadKeeps(w: World, s: Store, t: nat)
    requires Inv(w, s) && Enabled(w, s, AcquireRead(t))
    ensures Keeps(w, s, Apply(w, s, AcquireRead(t)))
  {
    hide Keeps, HandedOk, Clocked, Sound, FlightsOk;
    assert TaskOk(w, s, s.tasks[t]);
    OnlyTaskMoves(w, s, t, s.tasks[t].(rpc := Leading), Some(t));
  }

  lemma RecheckKeeps(w: World, s: Store, t: nat)
    requires Inv(w, s) && Enabled(w, s, Recheck(t))
    ensures Keeps(w, s, Apply(w, s, Recheck(t)))
  {
    hide Keeps, HandedOk, Clocked, FlightsOk, Distinctive, AllTruthful;
    var task := s.tasks[t];
    assert TaskOk(w, s, task);
    if task.fallback.Some? && Satisfied(task.requirement, s.known.cells[task.fallback.value.cell].mark) {
      OnlyTaskMoves(w, s, t, task.(rpc := Got(task.fallback.value)), None);
    } else {
      match Peek(s.known, task.requirement)
      case Some(o) => OnlyTaskMoves(w, s, t, task.(rpc := Got(o)), None);
      case None => OnlyTaskMoves(w, s, t, task.(rpc := Seeding), s.gate);
    }
  }

  lemma NewFlight(w: World, s: Store, point: nat)
    requires FlightsOk(w, s) && point in s.born
    ensures FlightsOk(w, s.(flight := Some(|s.flights|), flights := s.flights + [Flight(point, None)]))
  {
    var s' := s.(flight := Some(|s.flights|), flights := s.flights + [Flight(point, None)]);
    forall f | 0 <= f < |s'.flights| ensures FlightOk(w, s', s'.flights[f]) {
      if f < |s.flights| {
        assert FlightOk(w, s, s.flights[f]);
      }
    }
  }

  lemma TakeSeedKeeps(w: World, s: Store, t: nat)
    requires Inv(w, s) && Enabled(w, s, TakeSeed(t))
    ensures Keeps(w, s, Apply(w, s, TakeSeed(t)))
  {
    hide Keeps, HandedOk, Clocked, FlightsOk, AllTruthful;
    var task := s.tasks[t];
    assert TaskOk(w, s, task);
    OnlyTaskMoves(w, s, t, task.(rpc := Seeded(PresentSeed(s.known, task.fallback))), s.gate);
  }

  /** The lane's holder finds no flight published, so publishing its own replaces none. */
  lemma DispatchKeeps(w: World, s: Store, t: nat, point: nat)
    requires Inv(w, s) && Enabled(w, s, Dispatch(t, point))
    ensures s.flight == None
    ensures Keeps(w, s, Apply(w, s, Dispatch(t, point)))
  {
    hide HandedOk, Clocked, FlightsOk, AllTruthful;
    var task, f := s.tasks[t], |s.flights|;
    assert TaskOk(w, s, task);
    AllocatedOk(w, s, point);
    var ticked := Allocated(s, point);
    NewFlight(w, ticked, point);
    var mid := ticked.(flight := Some(f), flights := s.flights + [Flight(point, None)]);
    SameClock(ticked, mid);
    Settles(w, s, mid, t, task.(rpc := Reading(f, task.rpc.seed)));
  }

  lemma ServeReadKeeps(w: World, s: Store, t: nat)
    requires Inv(w, s) && Enabled(w, s, ServeRead(t))
    ensures Keeps(w, s, Apply(w, s, ServeRead(t)))
  {
    hide Keeps, HandedOk, FlightsOk;
    var task := s.tasks[t];
    assert TaskOk(w, s, task);
    var pc := task.rpc;
    var reply := ReadReply(Current(s.hist), pc.seed);
    if reply == NotModified {
      assert Truthful(s.hist, s.born, s.known.cells[pc.seed.value.cell]);
      RevisionTells(s.hist, s.born, s.known.cells[pc.seed.value.cell], |s.hist| - 1);
    }
    OnlyTaskMoves(w, s, t, task.(rpc := ReadReplied(pc.flight, pc.seed, reply, |s.hist| - 1)), s.gate);
  }

  /** Settling a flight with an outcome that meets its invocation point. */
  lemma FlightSettles(w: World, s: Store, f: nat, outcome: FlightOutcome)
    requires FlightsOk(w, s) && f < |s.flights|
    requires FlightOk(w, s, Flight(s.flights[f].invoked, Some(outcome)))
    ensures FlightsOk(w, s.(gate := None, flight := None, flights := s.flights[f := Flight(s.flights[f].invoked, Some(outcome))]))
  {
    var s' := s.(gate := None, flight := None, flights := s.flights[f := Flight(s.flights[f].invoked, Some(outcome))]);
    forall g | 0 <= g < |s'.flights| ensures FlightOk(w, s', s'.flights[g]) {
      if g != f {
        assert FlightOk(w, s, s.flights[g]);
      }
    }
  }

  lemma CompletedKeeps(w: World, s: Store, mid: Store, t: nat, f: nat, outcome: FlightOutcome, pc: ReadPc)
    requires Inv(w, s) && Grows(s, mid) && AtRead(s, t) && LeadsFlight(s.tasks[t]) == Some(f) && f < |s.flights|
    requires mid == s.(known := mid.known) && Sound(w, mid.hist, mid.born, mid.known)
    requires FlightOk(w, mid, Flight(s.flights[f].invoked, Some(outcome)))
    requires pc == ReadFailed || (pc.Got? && ReaderOk(w, mid, s.tasks[t].requirement, s.tasks[t].fallback, pc))
    ensures Keeps(w, s, Completed(mid, t, f, outcome, pc))
  {
    hide HandedOk, Sound;
    assert TaskOk(w, s, s.tasks[t]);
    FlightsGrow(w, s, mid);
    FlightSettles(w, mid, f, outcome);
    var done := mid.(gate := None, flight := None, flights := mid.flights[f := Flight(mid.flights[f].invoked, Some(outcome))]);
    SameClock(s, done);
    if pc == ReadFailed {
      ReaderGrows(w, s, mid, s.tasks[t].requirement, s.tasks[t].fallback, s.tasks[t].rpc);
    }
    Settles(w, s, done, t, s.tasks[t].(rpc := pc));
  }

  lemma FailReadKeeps(w: World, s: Store, t: nat)
    requires Inv(w, s) && Enabled(w, s, FailRead(t))
    ensures Keeps(w, s, Apply(w, s, FailRead(t)))
  {
    hide Keeps, HandedOk, Clocked, Sound;
    Same(s);
    var f := s.tasks[t].rpc.flight;
    assert FlightOk(w, s, s.flights[f]);
    CompletedKeeps(w, s, s, t, f, Error, ReadFailed);
  }

  /** A fetched state installed with its invocation point meets the reader's requirement. */
  lemma InstalledKeeps(w: World, s: Store, t: nat, i: Installed, o: Observation)
    requires Inv(w, s) && AtRead(s, t) && s.tasks[t].rpc.ReadReplied?
    requires s.tasks[t].rpc.flight < |s.flights|
    requires Installs(w, s.hist, s.born, s.known, i, o, s.flights[s.tasks[t].rpc.flight].invoked, s.tasks[t].rpc.at)
    ensures Keeps(w, s, Completed(s.(known := i.known), t, s.tasks[t].rpc.flight, Success(o), Got(o)))
  {
    hide Keeps, HandedOk, AllTruthful, Clocked;
    var task := s.tasks[t];
    assert TaskOk(w, s, task);
    var f := task.rpc.flight;
    assert FlightOk(w, s, s.flights[f]);
    var mid := s.(known := i.known);
    ReaderGrows(w, s, mid, task.requirement, task.fallback, task.rpc);
    CompletedKeeps(w, s, mid, t, f, Success(o), Got(o));
  }

  lemma PublishKeeps(w: World, s: Store, t: nat)
    requires ValidWorld(w) && Inv(w, s) && Enabled(w, s, Publish(t))
    ensures Keeps(w, s, Apply(w, s, Publish(t)))
  {
    hide Keeps, HandedOk, Lane, Installs, AllTruthful;
    var task := s.tasks[t];
    assert TaskOk(w, s, task);
    var pc := task.rpc;
    var invoked := s.flights[pc.flight].invoked;
    match pc.reply
    case Body(b, token) =>
      if w.decode(b).None? {
        Evicted(w, s);
        assert FlightOk(w, s, s.flights[pc.flight]);
        CompletedKeeps(w, s, s.(known := Known(None, s.known.cells)), t, pc.flight, Error, ReadFailed);
      } else {
        var v := w.decode(b).value;
        FetchedInstalls(w, s.hist, s.born, s.known, b, token, invoked, pc.at);
        var i := InstallFetched(s.known, token, v, Cell(Present(b, token), invoked, pc.at));
        InstalledKeeps(w, s, t, i, Observation(Some(token), Some(v), i.cell));
      }
    case NotModified =>
      UnchangedInstalls(w, s.hist, s.born, s.known, pc.seed.value, invoked, pc.at);
      var i := ConfirmUnchanged(s.known, pc.seed.value, invoked, pc.at);
      InstalledKeeps(w, s, t, i, pc.seed.value.(cell := i.cell));
    case Missing =>
      AbsentInstalls(w, s.hist, s.born, s.known, invoked, pc.at);
      var i := InstallAbsent(s.known, invoked, pc.at);
      InstalledKeeps(w, s, t, i, Observation(None, None, i.cell));
  }

  /** Two observations of one revision pool their evidence. */
  lemma EvidencePooled(w: World, s: Store, a: Observation, b: Observation)
    requires Sound(w, s.hist, s.born, s.known) && FlightsOk(w, s)
    requires Faithful(w, s.known.cells, a) && Faithful(w, s.known.cells, b) && a.revision == b.revision
    ensures var mine, theirs := s.known.cells[a.cell], s.known.cells[b.cell];
            var once := Advance(s.known.cells, a.cell, theirs.mark, theirs.proof);
            var s' := s.(known := Known(s.known.entry, Advance(once, b.cell, mine.mark, mine.proof)));
            && Grows(s, s') && Sound(w, s'.hist, s'.born, s'.known) && FlightsOk(w, s')
            && s'.known.cells[a.cell].mark >= theirs.mark
  {
    var mine, theirs := s.known.cells[a.cell], s.known.cells[b.cell];
    SameRevisionSameState(w, s.hist, s.born, s.known.cells, a, b);
    EvidencePasses(w, s, a, b);
    var once := Advance(s.known.cells, a.cell, theirs.mark, theirs.proof);
    AdvanceTruthful(s.hist, s.born, once, b.cell, mine.mark, mine.proof);
    AdvanceGrows(once, b.cell, mine.mark, mine.proof);
    var twice := Advance(once, b.cell, mine.mark, mine.proof);
    GrowsTwice(s.known.cells, once, twice);
    FlightsGrow(w, s, s.(known := Known(s.known.entry, twice)));
  }

  lemma CheckConfirms(w: World, s: Store, t: nat)
    requires ValidWorld(w) && Inv(w, s) && Enabled(w, s, FinishCheck(t))
    requires s.tasks[t].fallback.value.revision == s.tasks[t].rpc.observed.revision
    ensures Keeps(w, s, Checked(s, t))
  {
    hide HandedOk, FlightsOk, Clocked, Sound, CacheKnowledge.Advance, Grows, Lane;
    var task := s.tasks[t];
    assert TaskOk(w, s, task);
    var o, current := task.fallback.value, task.rpc.observed;
    EvidencePooled(w, s, o, current);
    var mine, theirs := s.known.cells[o.cell], s.known.cells[current.cell];
    AdvanceGrows(s.known.cells, o.cell, theirs.mark, theirs.proof);
    var once := Advance(s.known.cells, o.cell, theirs.mark, theirs.proof);
    var mid := s.(known := Known(s.known.entry, Advance(once, current.cell, mine.mark, mine.proof)));
    SameClock(s, mid);
    ReaderGrows(w, s, mid, task.requirement, task.fallback, task.rpc);
    OutsideLane(s, mid, t, task.(rpc := StillCurrent));
    Settles(w, s, mid, t, task.(rpc := StillCurrent));
  }

  lemma FinishCheckKeeps(w: World, s: Store, t: nat)
    requires ValidWorld(w) && Inv(w, s) && Enabled(w, s, FinishCheck(t))
    ensures Keeps(w, s, Apply(w, s, FinishCheck(t)))
  {
    hide HandedOk, FlightsOk, Clocked, Sound, Keeps;
    var task := s.tasks[t];
    assert TaskOk(w, s, task);
    var o, current := task.fallback.value, task.rpc.observed;
    if o.revision == current.revision {
      CheckConfirms(w, s, t);
    } else {
      OnlyTaskMoves(w, s, t, task.(rpc := Changed(current)), s.gate);
    }
  }

  lemma LeavesLane(w: World, s: Store, mid: Store, t: nat)
    requires Inv(w, s) && Grows(s, mid) && t in s.tasks && mid.tasks == s.tasks && mid.handed == s.handed
    requires Clocked(mid) && Sound(w, mid.hist, mid.born, mid.known) && FlightsOk(w, mid)
    requires Lane(mid.(tasks := s.tasks - {t}))
    ensures Keeps(w, s, mid.(tasks := s.tasks - {t}))
  {
    hide Clocked, Sound, Lane, FlightsOk;
    var s' := mid.(tasks := s.tasks - {t});
    TasksGrow(w, s, mid);
    HandedGrows(w, s, mid);
    SameShared(w, mid, s');
  }

  lemma CancelReadKeeps(w: World, s: Store, t: nat)
    requires Inv(w, s) && Enabled(w, s, CancelRead(t))
    ensures Keeps(w, s, Apply(w, s, CancelRead(t)))
  {
    hide HandedOk, Clocked, Sound, Keeps, TasksOk;
    var task := s.tasks[t];
    Same(s);
    match LeadsFlight(task) {
      case None =>
        var mid := s.(gate := if HoldsGate(task) then None else s.gate);
        SameShared(w, s, mid);
        LeavesLane(w, s, mid, t);
      case Some(f) =>
        assert FlightOk(w, s, s.flights[f]);
        FlightSettles(w, s, f, Cancelled);
        var mid := s.(gate := None, flight := None, flights := s.flights[f := Flight(s.flights[f].invoked, Some(Cancelled))]);
        SameClock(s, mid);
        LeavesLane(w, s, mid, t);
    }
  }

  lemma ShareKeeps(w: World, s: Store, to: Observation, from: Observation)
    requires Inv(w, s) && Enabled(w, s, Share(to, from))
    ensures Keeps(w, s, Apply(w, s, Share(to, from)))
  {
    hide TasksOk, FlightsOk, Clocked, Sound, Lane, Keeps;
    assert Faithful(w, s.known.cells, to) && Faithful(w, s.known.cells, from);
    EvidencePasses(w, s, to, from);
    var mid := Shared(s, to, from);
    SameClock(s, mid);
    SharedKeeps(w, s, mid);
  }

  // Mutations ----------------------------------------------------------------------------------

  lemma StartMutationKeeps(w: World, s: Store, t: nat, op: Operation)
    requires Inv(w, s) && Enabled(w, s, StartMutation(t, op))
    ensures Keeps(w, s, Apply(w, s, StartMutation(t, op)))
  {
    hide Keeps, FlightsOk, Clocked, Sound, TasksOk;
    NewTask(w, s, t, Mutator(op, MutationQueued));
  }

  lemma AcquireMutationKeeps(w: World, s: Store, t: nat)
    requires Inv(w, s) && Enabled(w, s, AcquireMutation(t))
    ensures Keeps(w, s, Apply(w, s, AcquireMutation(t)))
  {
    hide Keeps, FlightsOk, Clocked, HandedOk;
    var task := s.tasks[t];
    assert TaskOk(w, s, task);
    var cached := CaptureExpected(s.known, ExpectedRevision(task.op), ExpectedCell(task.op));
    OnlyTaskMoves(w, s, t, task.(mpc := Armed(cached)), Some(t));
  }

  lemma InvokeKeeps(w: World, s: Store, t: nat, point: nat)
    requires Inv(w, s) && Enabled(w, s, Invoke(t, point))
    ensures Keeps(w, s, Apply(w, s, Invoke(t, point)))
  {
    hide HandedOk, Clocked, FlightsOk, Sound;
    var task := s.tasks[t];
    assert TaskOk(w, s, task);
    AllocatedOk(w, s, point);
    MutatorGrows(w, s, Allocated(s, point), task.op, task.mpc);
    Settles(w, s, Allocated(s, point), t, task.(mpc := Invoked(task.mpc.cached, point)));
  }

  lemma ServeMutationKeeps(w: World, s: Store, t: nat, token: Token)
    requires Inv(w, s) && Enabled(w, s, ServeMutation(t, token))
    ensures Keeps(w, s, Apply(w, s, ServeMutation(t, token)))
  {
    hide HandedOk, FlightsOk, Sound;
    var task := s.tasks[t];
    assert TaskOk(w, s, task);
    var outcome := ServeOutcome(w, task.op, s.hist, token);
    var moved := task.(mpc := MutationReplied(task.mpc.cached, task.mpc.point, outcome));
    if outcome.Applied? {
      ExtendedOk(w, s, outcome.state);
      var mid := s.(hist := s.hist + [outcome.state]);
      MutatorGrows(w, s, mid, task.op, task.mpc);
      Settles(w, s, mid, t, moved);
    } else {
      OnlyTaskMoves(w, s, t, moved, s.gate);
    }
  }

  lemma ReplyKeeps(w: World, s: Store, t: nat, outcome: Outcome)
    requires Inv(w, s) && AtMutation(s, t) && (s.tasks[t].mpc.Invoked? || s.tasks[t].mpc.MutationReplied?)
    requires outcome.Definite? || outcome.InDoubt?
    ensures var pc := s.tasks[t].mpc;
            Keeps(w, s, SetMutation(s, t, MutationReplied(pc.cached, pc.point, outcome)))
  {
    hide Keeps, HandedOk, FlightsOk, Sound, Clocked;
    var task := s.tasks[t];
    assert TaskOk(w, s, task);
    OnlyTaskMoves(w, s, t, task.(mpc := MutationReplied(task.mpc.cached, task.mpc.point, outcome)), s.gate);
  }

  /** Releasing the lane with new knowledge, once the mutation's outcome is settled. */
  lemma RoundEnds(w: World, s: Store, t: nat, known: Known, pc: MutationPc)
    requires Inv(w, s) && AtMutation(s, t) && s.tasks[t].mpc.MutationReplied?
    requires CellsGrow(s.known.cells, known.cells) && Sound(w, s.hist, s.born, known)
    requires MutatorOk(w, s.(known := known), s.tasks[t].op, pc) && !HoldsGate(Mutator(s.tasks[t].op, pc))
    ensures Keeps(w, s, SetMutation(s.(gate := None, known := known), t, pc))
  {
    hide HandedOk, Sound;
    var grown, mid := s.(known := known), s.(gate := None, known := known);
    FlightsGrow(w, s, grown);
    SameShared(w, grown, mid);
    SameClock(s, mid);
    Settles(w, s, mid, t, s.tasks[t].(mpc := pc));
  }

  /** The expected state's evidence reaches the invocation point: it was current just before. */
  lemma ExpectedAdvances(
    w: World, s: Store, op: Operation, point: nat, at: nat, state: State, k: Known, c: Option<nat>)
    requires Transition(w, s, op, point, at, state)
    requires Sound(w, s.hist, s.born, k)
    requires c.Some? ==> c.value < |k.cells| && Revision(k.cells[c.value].state) == ExpectedRevision(op)
    ensures var cells := AdvanceExpected(k.cells, c, point, at);
            Sound(w, s.hist, s.born, Known(k.entry, cells)) && CellsGrow(k.cells, cells)
  {
    if c.Some? {
      assert Truthful(s.hist, s.born, k.cells[c.value]);
      RevisionTells(s.hist, s.born, k.cells[c.value], at);
      AdvanceGrows(k.cells, c.value, point, at);
      AdvanceTruthful(s.hist, s.born, k.cells, c.value, point, at);
    }
  }

  lemma ResultInstalls(w: World, s: Store, op: Operation, point: nat, at: nat, state: State)
    requires ValidWorld(w) && Sound(w, s.hist, s.born, s.known) && Transition(w, s, op, point, at, state)
    ensures var i := match state
                     case Absent => InstallAbsent(s.known, point, at + 1)
                     case Present(_, token) => InstallFetched(s.known, token, op.value, Cell(state, point, at + 1));
            && Installs(w, s.hist, s.born, s.known, i, InstalledObservation(op, state, i.cell), point, at + 1)
            && i.known.cells[i.cell].state == state
  {
    match state
    case Absent => AbsentInstalls(w, s.hist, s.born, s.known, point, at + 1);
    case Present(b, token) =>
      FetchedInstalls(w, s.hist, s.born, s.known, b, token, point, at + 1);
      var i := InstallFetched(s.known, token, op.value, Cell(state, point, at + 1));
      assert Faithful(w, i.known.cells, Observation(Some(token), Some(op.value), i.cell));
      assert Truthful(s.hist, s.born, i.known.cells[i.cell]);
      RevisionTells(s.hist, s.born, i.known.cells[i.cell], at + 1);
  }

  /** What an applied mutation leaves: the new state's entry, and evidence for the old state. */
  lemma AppliedKnowledge(
    w: World, s: Store, op: Operation, cached: Option<nat>, point: nat, at: nat, state: State)
    requires ValidWorld(w) && Sound(w, s.hist, s.born, s.known) && Transition(w, s, op, point, at, state)
    requires ExpectedObservation(op).Some? ==> Faithful(w, s.known.cells, ExpectedObservation(op).value)
    requires WellFormed(op) && CapturedOk(w, s, op, cached)
    ensures var i := InstallApplied(s, op, cached, point, at, state);
            && Sound(w, s.hist, s.born, i.known) && CellsGrow(s.known.cells, i.known.cells)
            && i.known.entry.Some? && i.known.entry.value.cell == i.cell < |i.known.cells|
            && Faithful(w, i.known.cells, InstalledObservation(op, state, i.cell))
            && i.known.cells[i.cell].state == state
            && i.known.cells[i.cell].mark >= point && i.known.cells[i.cell].proof >= at + 1
  {
    hide AllTruthful, InstallAbsent, InstallFetched, Advance, Transition;
    ResultInstalls(w, s, op, point, at, state);
    var i := match state
             case Absent => InstallAbsent(s.known, point, at + 1)
             case Present(_, token) => InstallFetched(s.known, token, op.value, Cell(state, point, at + 1));
    ExpectedAdvances(w, s, op, point, at, state, i.known, ExpectedCell(op));
    var once := AdvanceExpected(i.known.cells, ExpectedCell(op), point, at);
    ExpectedAdvances(w, s, op, point, at, state, Known(i.known.entry, once), cached);
    var twice := AdvanceExpected(once, cached, point, at);
    GrowsTwice(i.known.cells, once, twice);
    GrowsTwice(s.known.cells, i.known.cells, twice);
    FaithfulGrows(w, i.known.cells, twice, InstalledObservation(op, state, i.cell));
  }

  lemma ReconcileAppliedKeeps(w: World, s: Store, t: nat)
    requires ValidWorld(w) && Inv(w, s) && Enabled(w, s, Reconcile(t)) && s.tasks[t].mpc.outcome.Applied?
    ensures Keeps(w, s, Apply(w, s, Reconcile(t)))
  {
    hide Keeps, HandedOk, FlightsOk, Clocked, Lane, AllTruthful, InstallApplied;
    var task := s.tasks[t];
    assert TaskOk(w, s, task);
    var pc, at, state := task.mpc, task.mpc.outcome.at, task.mpc.outcome.state;
    AppliedKnowledge(w, s, task.op, pc.cached, pc.point, at, state);
    var i := InstallApplied(s, task.op, pc.cached, pc.point, at, state);
    MutatorGrows(w, s, s.(known := i.known), task.op, pc);
    RoundEnds(w, s, t, i.known, Done(InstalledObservation(task.op, state, i.cell), pc.point, at));
  }

  lemma ReconcileOtherKeeps(w: World, s: Store, t: nat)
    requires ValidWorld(w) && Inv(w, s) && Enabled(w, s, Reconcile(t)) && !s.tasks[t].mpc.outcome.Applied?
    ensures Keeps(w, s, Apply(w, s, Reconcile(t)))
  {
    hide Keeps, HandedOk, FlightsOk, Clocked, Lane;
    var task := s.tasks[t];
    assert TaskOk(w, s, task);
    var pc := task.mpc;
    match pc.outcome
    case NotFound(at) =>
      AbsentInstalls(w, s.hist, s.born, s.known, pc.point, at);
      var i := InstallAbsent(s.known, pc.point, at);
      MutatorGrows(w, s, s.(known := i.known), task.op, pc);
      RoundEnds(w, s, t, i.known,
                if task.op.Delete? then FoundMissing(Observation(None, None, i.cell), pc.point, at)
                else Refused(pc.point, at));
    case Rejected(at) =>
      RoundEnds(w, s, t, InvalidateExpected(s.known, ExpectedRevision(task.op)), Refused(pc.point, at));
    case Definite => RoundEnds(w, s, t, s.known, Failed);
    case InDoubt => RoundEnds(w, s, t, Known(None, s.known.cells), Failed);
  }

  lemma CancelMutationKeeps(w: World, s: Store, t: nat)
    requires Inv(w, s) && Enabled(w, s, CancelMutation(t))
    ensures Keeps(w, s, Apply(w, s, CancelMutation(t)))
  {
    hide HandedOk, Clocked, Sound, Keeps, TasksOk, FlightsOk;
    if HoldsGate(s.tasks[t]) {
      Evicted(w, s);
      var bare := s.(known := Known(None, s.known.cells));
      var mid := bare.(gate := None);
      SameShared(w, bare, mid);
      LeavesLane(w, s, mid, t);
    } else {
      Same(s);
      LeavesLane(w, s, s, t);
    }
  }

  // Every event -----------------------------------------------------------------------------------

  lemma ReadEventKeeps(w: World, s: Store, e: Event)
    requires ValidWorld(w) && Inv(w, s) && Enabled(w, s, e)
    requires e.StartRead? || e.StartCheck? || e.Admit? || e.Wake? || e.AcquireRead? || e.Recheck? || e.TakeSeed? || e.Dispatch? ||
             e.ServeRead? || e.FailRead? || e.Publish? || e.FinishCheck? || e.CancelRead?
    ensures Keeps(w, s, Apply(w, s, e))
  {
    hide Keeps, Inv, Apply;
    match e
    case StartRead(t, req) => StartReadKeeps(w, s, t, req);
    case StartCheck(t, req, o) => StartCheckKeeps(w, s, t, req, o);
    case Admit(t) => AdmitKeeps(w, s, t);
    case Wake(t) => WakeKeeps(w, s, t);
    case AcquireRead(t) => AcquireReadKeeps(w, s, t);
    case Recheck(t) => RecheckKeeps(w, s, t);
    case TakeSeed(t) => TakeSeedKeeps(w, s, t);
    case Dispatch(t, point) => DispatchKeeps(w, s, t, point);
    case ServeRead(t) => ServeReadKeeps(w, s, t);
    case FailRead(t) => FailReadKeeps(w, s, t);
    case Publish(t) => PublishKeeps(w, s, t);
    case FinishCheck(t) => FinishCheckKeeps(w, s, t);
    case CancelRead(t) => CancelReadKeeps(w, s, t);
  }

  lemma EventKeeps(w: World, s: Store, e: Event)
    requires ValidWorld(w) && Inv(w, s) && Enabled(w, s, e)
    ensures Keeps(w, s, Apply(w, s, e))
  {
    hide Keeps, Inv, Offered, Linked;
    match e
    case Allocate(_) => EnvironmentKeeps(w, s, e);
    case Foreign(_) => EnvironmentKeeps(w, s, e);
    case Evict => EnvironmentKeeps(w, s, e);
    case StartMutation(t, op) => StartMutationKeeps(w, s, t, op);
    case AcquireMutation(t) => AcquireMutationKeeps(w, s, t);
    case Invoke(t, point) => InvokeKeeps(w, s, t, point);
    case ServeMutation(t, token) => ServeMutationKeeps(w, s, t, token);
    case FailMutation(t) => LateReply(w, s, e); ReplyKeeps(w, s, t, Definite);
    case LoseReply(t) => LateReply(w, s, e); ReplyKeeps(w, s, t, InDoubt);
    case Reconcile(t) =>
      LateReply(w, s, e);
      if s.tasks[t].mpc.outcome.Applied? {
        ReconcileAppliedKeeps(w, s, t);
      } else {
        ReconcileOtherKeeps(w, s, t);
      }
    case CancelMutation(t) => CancelMutationKeeps(w, s, t);
    case Share(to, from) => ShareKeeps(w, s, to, from);
    case _ => ReadEventKeeps(w, s, e);
  }

  lemma LateReply(w: World, s: Store, e: Event)
    requires Offered(w, s, e) && (e.FailMutation? || e.LoseReply? || e.Reconcile?)
    ensures AtMutation(s, e.t) && (s.tasks[e.t].mpc.Invoked? || s.tasks[e.t].mpc.MutationReplied?)
    ensures e.Reconcile? ==> s.tasks[e.t].mpc.MutationReplied?
  {
  }

  /** The links an event follows always exist, so an offered event can always happen. */
  lemma AlwaysLinked(w: World, s: Store, e: Event)
    requires Inv(w, s) && Offered(w, s, e)
    ensures Enabled(w, s, e)
  {
    match e
    case StartCheck(_, _, o) => assert Faithful(w, s.known.cells, o);
    case Recheck(t) => assert TaskOk(w, s, s.tasks[t]);
    case FailRead(t) => assert TaskOk(w, s, s.tasks[t]);
    case Publish(t) => assert TaskOk(w, s, s.tasks[t]);
    case FinishCheck(t) => assert TaskOk(w, s, s.tasks[t]);
    case CancelRead(t) => assert TaskOk(w, s, s.tasks[t]);
    case Reconcile(t) => assert TaskOk(w, s, s.tasks[t]);
    case Share(to, from) => assert Faithful(w, s.known.cells, to) && Faithful(w, s.known.cells, from);
    case _ =>
  }
}
