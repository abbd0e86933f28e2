/** What readers and writers of a path are promised, over every run. */
module CacheGuarantees {
  import opened Sequences
  import opened CacheKnowledge
  import opened CacheProtocol
  import opened CacheInvariant
  import opened CacheSteps

  datatype Run = Run(states: seq<Store>, events: seq<Event>)

  ghost predicate Follows(w: World, run: Run, i: nat)
    requires |run.states| == |run.events| + 1 && i < |run.events|
  {
    Enabled(w, run.states[i], run.events[i]) && run.states[i + 1] == Apply(w, run.states[i], run.events[i])
  }

  /** Any interleaving of readers, writers, other instances and evictions on one path. */
  ghost predicate ValidRun(w: World, run: Run)
  {
    && ValidWorld(w)
    && |run.states| == |run.events| + 1
    && (exists state :: run.states[0] == CacheProtocol.Init(state))
    && forall i :: 0 <= i < |run.events| ==> Follows(w, run, i)
  }

  lemma StartsInv(w: World, state: State)
    ensures Inv(w, CacheProtocol.Init(state))
  {
  }

  lemma {:induction false} AlwaysInv(w: World, run: Run, i: nat)
    requires ValidRun(w, run) && i < |run.states|
    ensures Inv(w, run.states[i])
  {
    hide Inv, Apply, Enabled;
    if i == 0 {
      var state :| run.states[0] == CacheProtocol.Init(state);
      StartsInv(w, state);
    } else {
      AlwaysInv(w, run, i - 1);
      assert Follows(w, run, i - 1);
      EventKeeps(w, run.states[i - 1], run.events[i - 1]);
    }
  }

  lemma {:induction false} AlwaysGrows(w: World, run: Run, i: nat, j: nat)
    requires ValidRun(w, run) && i <= j < |run.states|
    ensures Grows(run.states[i], run.states[j])
    decreases j - i
  {
    hide Inv, Apply, Enabled;
    if i < j {
      AlwaysGrows(w, run, i, j - 1);
      AlwaysInv(w, run, j - 1);
      assert Follows(w, run, j - 1);
      EventKeeps(w, run.states[j - 1], run.events[j - 1]);
      GrowsAgain(run.states[i], run.states[j - 1], run.states[j]);
    } else {
      Same(run.states[i]);
    }
  }

  lemma GrowsAgain(a: Store, b: Store, c: Store)
    requires Grows(a, b) && Grows(b, c)
    ensures Grows(a, c)
  {
    GrowsTwice(a.known.cells, b.known.cells, c.known.cells);
  }

  // Freshness ---------------------------------------------------------------------------------

  /** The observation shows a state that was the backend's at some moment not before the point. */
  ghost predicate CurrentSince(w: World, s: Store, o: Observation, point: nat)
  {
    point in s.born &&
    exists k :: s.born[point] <= k < |s.hist| && Shows(w, s.hist[k], o)
  }

  ghost predicate Shows(w: World, state: State, o: Observation)
  {
    match state
    case Absent => o.revision == None && o.value == None
    case Present(b, token) => o.revision == Some(token) && o.value == w.decode(b) && o.value.Some?
  }

  lemma EvidenceIsTrue(w: World, s: Store, o: Observation, point: nat)
    requires Inv(w, s) && Faithful(w, s.known.cells, o) && point in s.born && point <= s.known.cells[o.cell].mark
    ensures CurrentSince(w, s, o, point)
  {
    var cell := s.known.cells[o.cell];
    assert Truthful(s.hist, s.born, cell);
    assert s.born[point] <= s.born[cell.mark];
    assert Shows(w, s.hist[cell.proof], o);
  }

  /** A point stands for the moment of its allocation: the state that was current then. */
  lemma PointsMarkTheirMoment(w: World, run: Run, i: nat, j: nat, t: nat, point: nat)
    requires ValidRun(w, run) && i < |run.events| && i < j < |run.states|
    requires run.events[i] in {Allocate(point), Dispatch(t, point), Invoke(t, point)}
    ensures run.states[i].hist != [] && run.states[i].hist <= run.states[j].hist
    ensures point in run.states[j].born && run.states[j].born[point] == |run.states[i].hist| - 1
  {
    hide Inv;
    assert Follows(w, run, i);
    AlwaysGrows(w, run, i, j);
    AlwaysGrows(w, run, i + 1, j);
  }

  /**
   A read that required evidence after a barrier returns a state that was current at some
   moment not before the barrier, however it was answered: by a hit, by joining a flight,
   by "not modified" or by a full read.
   */
  lemma ReadsAreFresh(w: World, run: Run, i: nat, t: nat, barrier: nat)
    requires ValidRun(w, run) && i < |run.states|
    requires AtRead(run.states[i], t) && run.states[i].tasks[t].requirement == Some(barrier)
    requires barrier in run.states[i].born && run.states[i].tasks[t].rpc.Got?
    ensures CurrentSince(w, run.states[i], run.states[i].tasks[t].rpc.observed, barrier)
  {
    hide CurrentSince;
    AlwaysInv(w, run, i);
    var s := run.states[i];
    assert TaskOk(w, s, s.tasks[t]);
    EvidenceIsTrue(w, s, s.tasks[t].rpc.observed, barrier);
  }

  /** The same for a check: what it reports current, or reports instead, meets the barrier. */
  lemma ChecksAreFresh(w: World, run: Run, i: nat, t: nat, barrier: nat)
    requires ValidRun(w, run) && i < |run.states|
    requires AtRead(run.states[i], t) && run.states[i].tasks[t].requirement == Some(barrier)
    requires barrier in run.states[i].born
    ensures var s, task := run.states[i], run.states[i].tasks[t];
            && (task.rpc.StillCurrent? ==>
                  && task.fallback.Some? && CurrentSince(w, s, task.fallback.value, barrier)
                  && task.fallback.value.cell < |s.known.cells|
                  && s.known.cells[task.fallback.value.cell].mark >= barrier)
            && (task.rpc.Changed? ==>
                  && CurrentSince(w, s, task.rpc.current, barrier)
                  && task.fallback.Some? && task.rpc.current.revision != task.fallback.value.revision)
  {
    hide CurrentSince;
    AlwaysInv(w, run, i);
    var s := run.states[i];
    var task := s.tasks[t];
    assert TaskOk(w, s, task);
    if task.rpc.StillCurrent? {
      EvidenceIsTrue(w, s, task.fallback.value, barrier);
    } else if task.rpc.Changed? {
      EvidenceIsTrue(w, s, task.rpc.current, barrier);
    }
  }

  /** Every observation ever handed out shows a state the backend really had. */
  lemma ObservationsAreGenuine(w: World, run: Run, i: nat, o: Observation)
    requires ValidRun(w, run) && i < |run.states| && o in run.states[i].handed
    ensures o.cell < |run.states[i].known.cells|
    ensures CurrentSince(w, run.states[i], o, run.states[i].known.cells[o.cell].mark)
  {
    hide CurrentSince;
    AlwaysInv(w, run, i);
    var s := run.states[i];
    assert Faithful(w, s.known.cells, o);
    assert Truthful(s.hist, s.born, s.known.cells[o.cell]);
    EvidenceIsTrue(w, s, o, s.known.cells[o.cell].mark);
  }

  lemma WatermarksNeverRegress(w: World, run: Run, i: nat, j: nat, c: nat)
    requires ValidRun(w, run) && i <= j < |run.states| && c < |run.states[i].known.cells|
    ensures c < |run.states[j].known.cells|
    ensures run.states[i].known.cells[c].mark <= run.states[j].known.cells[c].mark
    ensures run.states[i].known.cells[c].state == run.states[j].known.cells[c].state
  {
    AlwaysGrows(w, run, i, j);
  }

  // The lane ------------------------------------------------------------------------------------

  /** At most one task is between taking the path's permit and giving it back. */
  lemma OneInLane(w: World, run: Run, i: nat, t: nat, u: nat)
    requires ValidRun(w, run) && i < |run.states| && t in run.states[i].tasks && u in run.states[i].tasks
    requires HoldsGate(run.states[i].tasks[t]) && HoldsGate(run.states[i].tasks[u])
    ensures t == u
  {
    AlwaysInv(w, run, i);
  }

  /** A reader that publishes its flight never finds another one published. */
  lemma NoFlightIsReplaced(w: World, run: Run, i: nat, t: nat, point: nat)
    requires ValidRun(w, run) && i < |run.events| && run.events[i] == Dispatch(t, point)
    ensures run.states[i].flight == None
  {
    hide Inv;
    AlwaysInv(w, run, i);
    assert Follows(w, run, i);
    DispatchKeeps(w, run.states[i], t, point);
  }

  // Mutations -------------------------------------------------------------------------------------

  /**
   Reconciliation advances the expected observation exactly when the mutation applied, to
   its invocation point; and then that state really was current at or after the point.
   */
  lemma ExpectedAdvancesOnlyWhenApplied(w: World, run: Run, i: nat, t: nat)
    requires ValidRun(w, run) && i < |run.events| && run.events[i] == Reconcile(t)
    requires t in run.states[i].tasks && run.states[i].tasks[t].Mutator?
    requires ExpectedCell(run.states[i].tasks[t].op).Some? && run.states[i].tasks[t].mpc.MutationReplied?
    ensures var s, s' := run.states[i], run.states[i + 1];
            var op, pc := s.tasks[t].op, s.tasks[t].mpc;
            var c := ExpectedCell(op).value;
            && c < |s.known.cells| <= |s'.known.cells|
            && (if pc.outcome.Applied? then
                  && s'.known.cells[c].mark == Max(s.known.cells[c].mark, pc.point)
                  && CurrentSince(w, s, ExpectedObservation(op).value, pc.point)
                else s'.known.cells[c] == s.known.cells[c])
  {
    hide Inv, CurrentSince;
    AlwaysInv(w, run, i);
    assert Follows(w, run, i);
    ExpectedAfter(w, run.states[i], t);
  }

  lemma ExpectedAfter(w: World, s: Store, t: nat)
    requires ValidWorld(w) && Inv(w, s) && Enabled(w, s, Reconcile(t)) && ExpectedCell(s.tasks[t].op).Some?
    ensures var s' := Apply(w, s, Reconcile(t));
            var op, pc := s.tasks[t].op, s.tasks[t].mpc;
            var c := ExpectedCell(op).value;
            && c < |s.known.cells| <= |s'.known.cells|
            && (if pc.outcome.Applied? then
                  && s'.known.cells[c].mark == Max(s.known.cells[c].mark, pc.point)
                  && CurrentSince(w, s, ExpectedObservation(op).value, pc.point)
                else s'.known.cells[c] == s.known.cells[c])
  {
    hide FlightsOk, HandedOk, Lane, AllTruthful, Clocked;
    var task := s.tasks[t];
    assert TaskOk(w, s, task);
    var op, pc := task.op, task.mpc;
    var c := ExpectedCell(op).value;
    match pc.outcome {
      case Applied(at, state) =>
        RevisionShows(w, s, ExpectedObservation(op).value, at);
        ExpectedMark(s, op, pc.cached, pc.point, at, state);
      case NotFound(at) => AbsentElsewhere(w, s, op, pc.point, at);
      case _ =>
    }
  }

  /** A found absence is recorded in a cell that is not the expected, present state's. */
  lemma AbsentElsewhere(w: World, s: Store, op: Operation, point: nat, at: nat)
    requires Sound(w, s.hist, s.born, s.known) && !op.Create? && WellFormed(op)
    requires Faithful(w, s.known.cells, ExpectedObservation(op).value)
    ensures var c := ExpectedCell(op).value;
            InstallAbsent(s.known, point, at).known.cells[c] == s.known.cells[c]
  {
  }

  /** An observation with the revision of a state in the history shows that state. */
  lemma RevisionShows(w: World, s: Store, o: Observation, k: nat)
    requires Sound(w, s.hist, s.born, s.known) && Faithful(w, s.known.cells, o) && k < |s.hist|
    requires o.revision == Revision(s.hist[k])
    ensures Shows(w, s.hist[k], o)
  {
    assert Truthful(s.hist, s.born, s.known.cells[o.cell]);
    RevisionTells(s.hist, s.born, s.known.cells[o.cell], k);
  }

  lemma ExpectedMark(s: Store, op: Operation, cached: Option<nat>, point: nat, at: nat, state: State)
    requires EntryOk(s.known) && (state.Present? ==> !op.Delete?)
    requires ExpectedCell(op).Some? && ExpectedCell(op).value < |s.known.cells|
    requires cached.Some? ==> cached.value < |s.known.cells|
    ensures var c := ExpectedCell(op).value;
            var cells := InstallApplied(s, op, cached, point, at, state).known.cells;
            |cells| >= |s.known.cells| && cells[c].mark == Max(s.known.cells[c].mark, point)
  {
  }

  /** A round that finds the expected state cached, under another cell, captures that cell too. */
  lemma MatchingEntryIsCaptured(w: World, s: Store, t: nat)
    requires Enabled(w, s, AcquireMutation(t)) && s.known.entry.Some?
    requires s.known.entry.value.revision == ExpectedRevision(s.tasks[t].op)
    ensures var pc := Apply(w, s, AcquireMutation(t)).tasks[t].mpc;
            && pc.Armed?
            && (pc.cached == Some(s.known.entry.value.cell) || ExpectedCell(s.tasks[t].op) == Some(s.known.entry.value.cell))
  {
  }

  /** An applied mutation advances the captured cell to its invocation point as well. */
  lemma CapturedEntryAdvancesToo(w: World, run: Run, i: nat, t: nat)
    requires ValidRun(w, run) && i < |run.events| && run.events[i] == Reconcile(t)
    requires AtMutation(run.states[i], t) && run.states[i].tasks[t].mpc.MutationReplied?
    requires run.states[i].tasks[t].mpc.outcome.Applied? && run.states[i].tasks[t].mpc.cached.Some?
    ensures var s, s' := run.states[i], run.states[i + 1];
            var pc := s.tasks[t].mpc;
            && pc.cached.value < |s.known.cells| <= |s'.known.cells|
            && s'.known.cells[pc.cached.value].mark == Max(s.known.cells[pc.cached.value].mark, pc.point)
  {
    AlwaysInv(w, run, i);
    assert Follows(w, run, i);
    var s := run.states[i];
    var pc := s.tasks[t].mpc;
    assert TaskOk(w, s, s.tasks[t]);
    CapturedMark(s, s.tasks[t].op, pc.cached, pc.point, pc.outcome.at, pc.outcome.state);
  }

  lemma CapturedMark(s: Store, op: Operation, cached: Option<nat>, point: nat, at: nat, state: State)
    requires EntryOk(s.known) && (state.Present? ==> !op.Delete?)
    requires (ExpectedCell(op).Some? ==> ExpectedCell(op).value < |s.known.cells|)
    requires cached.Some? && cached.value < |s.known.cells|
    ensures var cells := InstallApplied(s, op, cached, point, at, state).known.cells;
            |cells| >= |s.known.cells| && cells[cached.value].mark == Max(s.known.cells[cached.value].mark, point)
  {
  }

  /** A receipt confirms an observation of its expected revision at any barrier it reaches. */
  lemma ReceiptsConfirmTheirPrecondition(w: World, run: Run, i: nat, t: nat, o: Observation, barrier: nat)
    requires ValidRun(w, run) && i < |run.states| && AtMutation(run.states[i], t)
    requires run.states[i].tasks[t].mpc.Done? && o in run.states[i].handed
    requires barrier in run.states[i].born && barrier <= run.states[i].tasks[t].mpc.point
    requires o.revision == ExpectedRevision(run.states[i].tasks[t].op)
    ensures CurrentSince(w, run.states[i], o, barrier)
  {
    AlwaysInv(w, run, i);
    var s := run.states[i];
    assert TaskOk(w, s, s.tasks[t]);
    assert Faithful(w, s.known.cells, o);
    RevisionShows(w, s, o, s.tasks[t].mpc.at);
  }
}
