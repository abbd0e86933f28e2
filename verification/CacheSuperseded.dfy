/**
 After a mutation, no later read is answered from the cache with a state whose evidence
 predates it: an entry found later rests on a moment at or after the mutation.
 */
module CacheSuperseded {
  import opened Sequences
  import opened CacheKnowledge
  import opened CacheProtocol
  import opened CacheInvariant
  import opened CacheSteps
  import opened CacheGuarantees

  /** The entry, when it is for the given state (any state for `None`), rests on `floor` or later. */
  ghost predicate EntryAbove(k: Known, which: Option<State>, floor: nat)
  {
    k.entry.Some? ==>
      && k.entry.value.cell < |k.cells|
      && (which == None || which == Some(k.cells[k.entry.value.cell].state) ==>
            k.cells[k.entry.value.cell].proof >= floor)
  }

  /** A reply not yet reconciled was served at `floor` or later. */
  ghost predicate ReplyAbove(task: Task, floor: nat)
  {
    match task
    case Reader(_, _, ReadReplied(_, _, _, at)) => at >= floor
    case Mutator(_, MutationReplied(_, _, Applied(at, _))) => at + 1 >= floor
    case Mutator(_, MutationReplied(_, _, NotFound(at))) => at >= floor
    case _ => true
  }

  ghost predicate Above(s: Store, which: Option<State>, floor: nat)
  {
    && floor < |s.hist|
    && EntryAbove(s.known, which, floor)
    && forall t :: t in s.tasks ==> ReplyAbove(s.tasks[t], floor)
  }

  lemma SameEntry(k: Known, k': Known, which: Option<State>, floor: nat)
    requires EntryAbove(k, which, floor) && CellsGrow(k.cells, k'.cells) && (k'.entry == k.entry || k'.entry == None)
    ensures EntryAbove(k', which, floor)
  {
  }

  /** Events other than publishing and reconciling keep or drop the entry they find. */
  lemma EntryStays(w: World, s: Store, e: Event)
    requires Enabled(w, s, e) && !e.Publish? && !e.Reconcile?
    ensures var k := Apply(w, s, e).known;
            k.entry == s.known.entry || k.entry == None
  {
  }

  function TaskOf(e: Event): Option<nat>
  {
    match e
    case Allocate(_) => None
    case Foreign(_) => None
    case Evict => None
    case Share(_, _) => None
    case _ => Some(e.t)
  }

  predicate IsRead(e: Event)
  {
    e.StartRead? || e.StartCheck? || e.Admit? || e.Wake? || e.AcquireRead? || e.Recheck? || e.TakeSeed? || e.Dispatch? ||
    e.ServeRead? || e.FailRead? || e.Publish? || e.FinishCheck? || e.CancelRead?
  }

  lemma OthersStay(w: World, s: Store, e: Event, t: nat)
    requires Enabled(w, s, e) && TaskOf(e) != Some(t)
    ensures t in s.tasks <==> t in Apply(w, s, e).tasks
    ensures t in s.tasks ==> Apply(w, s, e).tasks[t] == s.tasks[t]
  {
    hide Apply, Enabled;
    if IsRead(e) {
      ReadOthersStay(w, s, e, t);
    } else {
      WriteOthersStay(w, s, e, t);
    }
  }

  lemma ReadOthersStay(w: World, s: Store, e: Event, t: nat)
    requires IsRead(e) && Enabled(w, s, e) && e.t != t
    ensures t in s.tasks <==> t in Apply(w, s, e).tasks
    ensures t in s.tasks ==> Apply(w, s, e).tasks[t] == s.tasks[t]
  {
    hide Linked, Published, StartChecking, Checked, InstallFetched, InstallAbsent, ConfirmUnchanged, Peek, PresentSeed,
      ReadReply;
    match e
    case Publish(t') => PublishOthersStay(w, s, t', t);
    case StartCheck(t', req, o) => CheckOthersStay(w, s, e, t);
    case FinishCheck(t') => CheckOthersStay(w, s, e, t);
    case _ =>
  }

  lemma PublishOthersStay(w: World, s: Store, u: nat, t: nat)
    requires Enabled(w, s, Publish(u)) && u != t
    ensures t in s.tasks <==> t in Published(w, s, u).tasks
    ensures t in s.tasks ==> Published(w, s, u).tasks[t] == s.tasks[t]
  {
    hide InstallFetched, InstallAbsent, ConfirmUnchanged;
  }

  lemma CheckOthersStay(w: World, s: Store, e: Event, t: nat)
    requires Enabled(w, s, e) && (e.StartCheck? || e.FinishCheck?) && e.t != t
    ensures var s' := if e.StartCheck? then StartChecking(s, e.t, e.requirement, e.observed) else Checked(s, e.t);
            (t in s.tasks <==> t in s'.tasks) && (t in s.tasks ==> s'.tasks[t] == s.tasks[t])
  {
    hide CacheKnowledge.Advance, Peek;
  }

  lemma WriteOthersStay(w: World, s: Store, e: Event, t: nat)
    requires !IsRead(e) && Enabled(w, s, e) && TaskOf(e) != Some(t)
    ensures t in s.tasks <==> t in Apply(w, s, e).tasks
    ensures t in s.tasks ==> Apply(w, s, e).tasks[t] == s.tasks[t]
  {
    hide Linked, InstallApplied, InstallAbsent, CaptureExpected, InvalidateExpected, ServeOutcome;
  }

  /** Replies are served on the state current at the time. */
  lemma MoverAbove(w: World, s: Store, e: Event, floor: nat)
    requires Enabled(w, s, e) && floor < |s.hist| && TaskOf(e).Some? && TaskOf(e).value in Apply(w, s, e).tasks
    requires TaskOf(e).value in s.tasks ==> ReplyAbove(s.tasks[TaskOf(e).value], floor)
    ensures ReplyAbove(Apply(w, s, e).tasks[TaskOf(e).value], floor)
  {
    hide Apply, Enabled;
    if IsRead(e) {
      ReadMoverAbove(w, s, e, floor);
    } else {
      WriteMoverAbove(w, s, e, floor);
    }
  }

  lemma ReadMoverAbove(w: World, s: Store, e: Event, floor: nat)
    requires IsRead(e) && Enabled(w, s, e) && floor < |s.hist| && e.t in Apply(w, s, e).tasks
    ensures ReplyAbove(Apply(w, s, e).tasks[e.t], floor)
  {
    hide Linked, Published, StartChecking, Checked, Peek, PresentSeed, ReadReply;
    match e
    case Publish(t) => PublishMoverAbove(w, s, t, floor);
    case StartCheck(t, req, o) => CheckMoverAbove(w, s, e, floor);
    case FinishCheck(t) => CheckMoverAbove(w, s, e, floor);
    case _ =>
  }

  lemma PublishMoverAbove(w: World, s: Store, t: nat, floor: nat)
    requires Enabled(w, s, Publish(t)) && t in Published(w, s, t).tasks
    ensures ReplyAbove(Published(w, s, t).tasks[t], floor)
  {
    hide InstallFetched, InstallAbsent, ConfirmUnchanged;
  }

  lemma CheckMoverAbove(w: World, s: Store, e: Event, floor: nat)
    requires Enabled(w, s, e) && (e.StartCheck? || e.FinishCheck?)
    requires e.t in (if e.StartCheck? then StartChecking(s, e.t, e.requirement, e.observed) else Checked(s, e.t)).tasks
    ensures ReplyAbove(
              (if e.StartCheck? then StartChecking(s, e.t, e.requirement, e.observed) else Checked(s, e.t)).tasks[e.t], floor)
  {
    hide CacheKnowledge.Advance, Peek;
  }

  lemma WriteMoverAbove(w: World, s: Store, e: Event, floor: nat)
    requires !IsRead(e) && Enabled(w, s, e) && floor < |s.hist| && TaskOf(e).Some? && e.t in Apply(w, s, e).tasks
    requires e.t in s.tasks ==> ReplyAbove(s.tasks[e.t], floor)
    ensures ReplyAbove(Apply(w, s, e).tasks[e.t], floor)
  {
    hide Linked, InstallApplied, InstallAbsent, CaptureExpected, InvalidateExpected;
  }

  lemma RepliesStayAbove(w: World, s: Store, e: Event, floor: nat)
    requires Enabled(w, s, e) && floor < |s.hist| && forall t :: t in s.tasks ==> ReplyAbove(s.tasks[t], floor)
    ensures forall t :: t in Apply(w, s, e).tasks ==> ReplyAbove(Apply(w, s, e).tasks[t], floor)
  {
    hide Enabled, Apply, ReplyAbove;
    forall t | t in Apply(w, s, e).tasks ensures ReplyAbove(Apply(w, s, e).tasks[t], floor) {
      if TaskOf(e) == Some(t) {
        MoverAbove(w, s, e, floor);
      } else {
        OthersStay(w, s, e, t);
      }
    }
  }

  lemma InstalledAbove(
    w: World, s: Store, i: Installed, o: Observation, mark: nat, proof: nat, which: Option<State>, floor: nat)
    requires Installs(w, s.hist, s.born, s.known, i, o, mark, proof) && proof >= floor
    ensures EntryAbove(i.known, which, floor)
  {
  }

  lemma PublishAbove(w: World, s: Store, t: nat, which: Option<State>, floor: nat)
    requires ValidWorld(w) && Inv(w, s) && Enabled(w, s, Publish(t)) && Above(s, which, floor)
    ensures EntryAbove(Apply(w, s, Publish(t)).known, which, floor)
  {
    hide HandedOk, Lane, Installs, AllTruthful;
    var task := s.tasks[t];
    assert TaskOk(w, s, task) && ReplyAbove(task, floor);
    var pc := task.rpc;
    var invoked := s.flights[pc.flight].invoked;
    match pc.reply
    case Body(b, token) =>
      if w.decode(b).Some? {
        var v := w.decode(b).value;
        FetchedInstalls(w, s.hist, s.born, s.known, b, token, invoked, pc.at);
        var i := InstallFetched(s.known, token, v, Cell(Present(b, token), invoked, pc.at));
        InstalledAbove(w, s, i, Observation(Some(token), Some(v), i.cell), invoked, pc.at, which, floor);
      }
    case NotModified =>
      UnchangedInstalls(w, s.hist, s.born, s.known, pc.seed.value, invoked, pc.at);
      var i := ConfirmUnchanged(s.known, pc.seed.value, invoked, pc.at);
      InstalledAbove(w, s, i, pc.seed.value.(cell := i.cell), invoked, pc.at, which, floor);
    case Missing =>
      AbsentInstalls(w, s.hist, s.born, s.known, invoked, pc.at);
      var i := InstallAbsent(s.known, invoked, pc.at);
      InstalledAbove(w, s, i, Observation(None, None, i.cell), invoked, pc.at, which, floor);
  }

  /** An applied mutation's entry rests on the state it installed. */
  lemma AppliedAbove(w: World, s: Store, t: nat, which: Option<State>)
    requires ValidWorld(w) && Inv(w, s) && Enabled(w, s, Reconcile(t)) && s.tasks[t].mpc.outcome.Applied?
    ensures EntryAbove(Apply(w, s, Reconcile(t)).known, which, s.tasks[t].mpc.outcome.at + 1)
  {
    hide HandedOk, Lane, AllTruthful, FlightsOk, InstallApplied;
    var task := s.tasks[t];
    assert TaskOk(w, s, task);
    var outcome := task.mpc.outcome;
    AppliedKnowledge(w, s, task.op, task.mpc.cached, task.mpc.point, outcome.at, outcome.state);
  }

  /** So does the absence a mutation was answered with. */
  lemma MissingAbove(w: World, s: Store, t: nat, at: nat)
    requires Inv(w, s) && Enabled(w, s, Reconcile(t)) && s.tasks[t].mpc.outcome == NotFound(at)
    ensures EntryAbove(Apply(w, s, Reconcile(t)).known, None, at)
  {
    hide HandedOk, Lane, AllTruthful, FlightsOk, Installs;
    var task := s.tasks[t];
    assert TaskOk(w, s, task);
    AbsentInstalls(w, s.hist, s.born, s.known, task.mpc.point, at);
    var i := InstallAbsent(s.known, task.mpc.point, at);
    InstalledAbove(w, s, i, Observation(None, None, i.cell), task.mpc.point, at, None, at);
  }

  lemma ReconcileAbove(w: World, s: Store, t: nat, which: Option<State>, floor: nat)
    requires ValidWorld(w) && Inv(w, s) && Enabled(w, s, Reconcile(t)) && Above(s, which, floor)
    ensures EntryAbove(Apply(w, s, Reconcile(t)).known, which, floor)
  {
    hide HandedOk, Lane, AllTruthful, FlightsOk, InstallApplied, Installs;
    var task := s.tasks[t];
    assert TaskOk(w, s, task) && ReplyAbove(task, floor);
    match task.mpc.outcome
    case Applied(_, _) => AppliedAbove(w, s, t, which);
    case NotFound(at) =>
      AbsentInstalls(w, s.hist, s.born, s.known, task.mpc.point, at);
      var i := InstallAbsent(s.known, task.mpc.point, at);
      InstalledAbove(w, s, i, Observation(None, None, i.cell), task.mpc.point, at, which, floor);
    case _ =>
  }

  lemma AboveKept(w: World, s: Store, e: Event, which: Option<State>, floor: nat)
    requires ValidWorld(w) && Inv(w, s) && Enabled(w, s, e) && Above(s, which, floor)
    ensures Above(Apply(w, s, e), which, floor)
  {
    hide Inv, Apply, Enabled, EntryAbove, ReplyAbove;
    EventKeeps(w, s, e);
    RepliesStayAbove(w, s, e, floor);
    if e.Publish? {
      PublishAbove(w, s, e.t, which, floor);
    } else if e.Reconcile? {
      ReconcileAbove(w, s, e.t, which, floor);
    } else {
      EntryStays(w, s, e);
      SameEntry(s.known, Apply(w, s, e).known, which, floor);
    }
  }

  lemma {:induction false} AboveForGood(w: World, run: Run, i: nat, j: nat, which: Option<State>, floor: nat)
    requires ValidRun(w, run) && i <= j < |run.states| && Above(run.states[i], which, floor)
    ensures Above(run.states[j], which, floor)
    decreases j - i
  {
    hide Inv, Apply, Enabled, Above;
    if i < j {
      AboveForGood(w, run, i, j - 1, which, floor);
      AlwaysInv(w, run, j - 1);
      assert Follows(w, run, j - 1);
      AboveKept(w, run.states[j - 1], run.events[j - 1], which, floor);
    }
  }

  /** With the lane free there is no reply waiting to be reconciled. */
  lemma FreeLaneHasNoReplies(s: Store, floor: nat)
    requires Lane(s) && s.gate.None?
    ensures forall t :: t in s.tasks ==> ReplyAbove(s.tasks[t], floor)
  {
  }

  lemma RoundFreesLane(w: World, s: Store, e: Event)
    requires Inv(w, s) && Enabled(w, s, e) && (e.Reconcile? || (e.CancelMutation? && HoldsGate(s.tasks[e.t])))
    ensures Apply(w, s, e).gate.None?
  {
  }

  /** The expected state of a mutation: absence for a create, its observation's state otherwise. */
  ghost function ExpectedState(s: Store, op: Operation): State
    requires op.Create? || ExpectedCell(op).value < |s.known.cells|
  {
    if op.Create? then Absent else s.known.cells[ExpectedCell(op).value].state
  }

  lemma RejectedLeaves(w: World, s: Store, t: nat, floor: nat)
    requires ValidWorld(w) && Inv(w, s) && Enabled(w, s, Reconcile(t)) && s.tasks[t].mpc.outcome.Rejected?
    ensures s.tasks[t].op.Create? || ExpectedCell(s.tasks[t].op).value < |s.known.cells|
    ensures EntryAbove(Apply(w, s, Reconcile(t)).known, Some(ExpectedState(s, s.tasks[t].op)), floor)
  {
    hide HandedOk, Lane, AllTruthful, FlightsOk;
    var task := s.tasks[t];
    assert TaskOk(w, s, task);
  }

  /** Which entries the round's end outlaws, and the floor it sets for them. */
  ghost function Outlawed(s: Store, e: Event): Option<(Option<State>, nat)>
    requires e.Reconcile? || e.CancelMutation?
    requires AtMutation(s, e.t) && s.hist != []
    requires s.tasks[e.t].op.Create? || ExpectedCell(s.tasks[e.t].op).value < |s.known.cells|
  {
    var task := s.tasks[e.t];
    if e.CancelMutation? then (if HoldsGate(task) then Some((None, |s.hist| - 1)) else None)
    else if task.mpc.MutationReplied? then
      match task.mpc.outcome
      case Applied(at, _) => Some((None, at + 1))
      case NotFound(at) => Some((None, at))
      case InDoubt => Some((None, |s.hist| - 1))
      case Rejected(_) => Some((Some(ExpectedState(s, task.op)), |s.hist| - 1))
      case _ => None
    else None
  }

  /**
   Once a mutation applied, found nothing, was lost or was cancelled in its lane, every entry
   found in the cache afterwards stands for a state that was current at or after that; once
   it was rejected, so does every entry for the state it expected.
   */
  lemma SupersededEntriesAreNotServed(w: World, run: Run, i: nat, j: nat)
    requires ValidRun(w, run) && i < j < |run.states|
    requires run.events[i].Reconcile? || run.events[i].CancelMutation?
    ensures var s, e := run.states[i], run.events[i];
            && s.hist != [] && AtMutation(s, e.t)
            && (s.tasks[e.t].op.Create? || ExpectedCell(s.tasks[e.t].op).value < |s.known.cells|)
            && match Outlawed(s, e)
               case None => true
               case Some((which, floor)) => EntryAbove(run.states[j].known, which, floor)
  {
    hide Inv, Apply, EntryAbove;
    AlwaysInv(w, run, i);
    AlwaysInv(w, run, i + 1);
    assert Follows(w, run, i);
    var s, e := run.states[i], run.events[i];
    ExpectedExists(w, s, e.t);
    RoundEndsAbove(w, s, e);
    if Outlawed(s, e).Some? {
      var (which, floor) := Outlawed(s, e).value;
      AboveForGood(w, run, i + 1, j, which, floor);
    }
  }

  /** The entry, when its state is the one meant, shows a state no older than the floor. */
  lemma EntryShows(w: World, s: Store, o: Observation, which: Option<State>, floor: nat)
    requires Inv(w, s) && s.known.entry == Some(o) && EntryAbove(s.known, which, floor)
    requires which.Some? ==> o.revision == Revision(which.value) && (which.value.Present? ==> which.value in s.hist)
    ensures exists k :: floor <= k < |s.hist| && Shows(w, s.hist[k], o)
  {
    hide FlightsOk, TasksOk, HandedOk, Lane;
    var cell := s.known.cells[o.cell];
    assert Truthful(s.hist, s.born, cell);
    if which.Some? && which.value.Present? {
      var k :| 0 <= k < |s.hist| && s.hist[k] == which.value;
      RevisionTells(s.hist, s.born, cell, k);
    }
    assert Shows(w, s.hist[cell.proof], o);
  }

  /** The state a mutation expected was the backend's once. */
  lemma ExpectedWasReal(w: World, s: Store, op: Operation)
    requires Inv(w, s) && (op.Create? || ExpectedCell(op).value < |s.known.cells|)
    ensures ExpectedState(s, op).Present? ==> ExpectedState(s, op) in s.hist
  {
    hide FlightsOk, TasksOk, HandedOk, Lane;
    if !op.Create? {
      assert Truthful(s.hist, s.born, s.known.cells[ExpectedCell(op).value]);
    }
  }

  /**
   So a later hit, under any requirement, shows a state that was current since the round
   ended; after a rejection, a hit for the revision the mutation expected does.
   */
  lemma HitsFollowTheMutation(w: World, run: Run, i: nat, j: nat, t: nat, req: Option<nat>)
    requires ValidRun(w, run) && i < j < |run.events|
    requires run.events[i].Reconcile? || run.events[i].CancelMutation?
    requires run.events[j] == StartRead(t, req)
    requires AtRead(run.states[j + 1], t) && run.states[j + 1].tasks[t].rpc.Got?
    ensures var s, e, o := run.states[i], run.events[i], run.states[j + 1].tasks[t].rpc.observed;
            && s.hist != [] && AtMutation(s, e.t)
            && (s.tasks[e.t].op.Create? || ExpectedCell(s.tasks[e.t].op).value < |s.known.cells|)
            && match Outlawed(s, e)
               case None => true
               case Some((which, floor)) =>
                 which == None || o.revision == Revision(which.value) ==>
                   exists k :: floor <= k < |run.states[j].hist| && Shows(w, run.states[j].hist[k], o)
  {
    hide Inv, EntryAbove, Outlawed, Shows, Grows;
    SupersededEntriesAreNotServed(w, run, i, j);
    AlwaysInv(w, run, i);
    AlwaysInv(w, run, j);
    var s, e, o := run.states[i], run.events[i], run.states[j + 1].tasks[t].rpc.observed;
    HitIsTheEntry(w, run, j, t, req);
    if Outlawed(s, e).Some? {
      var (which, floor) := Outlawed(s, e).value;
      if which == None || o.revision == Revision(which.value) {
        OutlawedStays(w, run, i, j);
        EntryShows(w, run.states[j], o, which, floor);
      }
    }
  }

  lemma HitIsTheEntry(w: World, run: Run, j: nat, t: nat, req: Option<nat>)
    requires ValidRun(w, run) && j < |run.events| && run.events[j] == StartRead(t, req)
    requires AtRead(run.states[j + 1], t) && run.states[j + 1].tasks[t].rpc.Got?
    ensures run.states[j].known.entry == Some(run.states[j + 1].tasks[t].rpc.observed)
  {
    assert Follows(w, run, j);
  }

  lemma OutlawedStays(w: World, run: Run, i: nat, j: nat)
    requires ValidRun(w, run) && i < j < |run.states| && (run.events[i].Reconcile? || run.events[i].CancelMutation?)
    requires AtMutation(run.states[i], run.events[i].t) && run.states[i].hist != []
    requires var op := run.states[i].tasks[run.events[i].t].op;
             op.Create? || ExpectedCell(op).value < |run.states[i].known.cells|
    ensures Outlawed(run.states[i], run.events[i]).Some? ==>
              var which := Outlawed(run.states[i], run.events[i]).value.0;
              which.Some? && which.value.Present? ==> which.value in run.states[j].hist
  {
    hide Inv, Apply, ExpectedState;
    AlwaysInv(w, run, i);
    AlwaysGrows(w, run, i, j);
    ExpectedWasReal(w, run.states[i], run.states[i].tasks[run.events[i].t].op);
  }

  lemma ExpectedExists(w: World, s: Store, t: nat)
    requires Inv(w, s) && AtMutation(s, t)
    ensures s.hist != []
    ensures s.tasks[t].op.Create? || ExpectedCell(s.tasks[t].op).value < |s.known.cells|
  {
    assert TaskOk(w, s, s.tasks[t]);
  }

  lemma RoundEndsAbove(w: World, s: Store, e: Event)
    requires ValidWorld(w) && Inv(w, s) && Enabled(w, s, e) && (e.Reconcile? || e.CancelMutation?)
    requires s.tasks[e.t].op.Create? || ExpectedCell(s.tasks[e.t].op).value < |s.known.cells|
    ensures Outlawed(s, e).Some? ==>
              Above(Apply(w, s, e), Outlawed(s, e).value.0, Outlawed(s, e).value.1)
  {
    hide FlightsOk, HandedOk, Sound, Clocked, EntryAbove, InstallApplied, Lane;
    if Outlawed(s, e).Some? {
      var s', floor := Apply(w, s, e), Outlawed(s, e).value.1;
      EventKeeps(w, s, e);
      RoundFreesLane(w, s, e);
      FreeLaneHasNoReplies(s', floor);
      NoEntryAbove(Known(None, s.known.cells), Outlawed(s, e).value.0, floor);
      if e.Reconcile? {
        assert TaskOk(w, s, s.tasks[e.t]);
        match s.tasks[e.t].mpc.outcome {
          case Applied(_, _) => AppliedAbove(w, s, e.t, None);
          case NotFound(at) => MissingAbove(w, s, e.t, at);
          case Rejected(_) => RejectedLeaves(w, s, e.t, floor);
          case _ =>
        }
      }
    }
  }

  lemma NoEntryAbove(k: Known, which: Option<State>, floor: nat)
    requires k.entry.None?
    ensures EntryAbove(k, which, floor)
  {
  }
}
