/**
 Checking many retained observations at once: the groups run side by side, each through its
 observations in order, while every path serves other readers, writers, instances and
 evictions at the same time, all on one timeline.
 */
module CheckManyRuns {
  import opened Sequences
  import opened CacheKnowledge
  import opened CacheProtocol
  import opened CacheInvariant
  import opened CacheSteps
  import opened CacheGuarantees
  import opened CacheCalls
  import opened CachePaths
  import opened CheckMany

  datatype Call = Call(observations: seq<Retained>, groups: seq<seq<nat>>, requirement: Option<nat>)

  /** A group's verdicts so far, the places of those it asked for itself, and its check under way. */
  datatype Runner = Runner(results: seq<(nat, Verdict)>, checked: seq<nat>, busy: Option<nat>)

  /** The paths, whether the call has been made, and its groups from then on. */
  datatype System = System(paths: Paths, open: bool, runners: seq<Runner>)

  datatype Step =
    | Elsewhere(move: Move)
    | Open
    | Begin(g: nat, t: nat)
    | Finish(g: nat)
    | Reuse(g: nat)

  /** The observation a group is at. */
  function Next(call: Call, g: nat, runner: Runner): Option<Retained>
  {
    var n := |runner.results|;
    if g < |call.groups| && n < |call.groups[g]| && call.groups[g][n] < |call.observations| then
      Some(call.observations[call.groups[g][n]])
    else None
  }

  /** The first place, of those checked from the `n`th on, that has the observation's exact state. */
  function FirstPrior(call: Call, runner: Runner, o: Retained, n: nat): (p: Option<nat>)
    requires n <= |runner.checked|
    ensures p.Some? ==>
              && p.value < |runner.results| && runner.results[p.value].0 < |call.observations|
              && SameState(o.seen, call.observations[runner.results[p.value].0].seen)
    decreases |runner.checked| - n
  {
    if n == |runner.checked| then None
    else
      var k := runner.checked[n];
      if k < |runner.results| && runner.results[k].0 < |call.observations| &&
         SameState(o.seen, call.observations[runner.results[k].0].seen) then Some(k)
      else FirstPrior(call, runner, o, n + 1)
  }

  /** The check is a group's, which holds on to it until it has its verdict. */
  ghost predicate Busy(call: Call, sys: System, path: string, t: nat)
  {
    exists g :: 0 <= g < |sys.runners| && sys.runners[g].busy == Some(t) &&
                Next(call, g, sys.runners[g]).Some? && Next(call, g, sys.runners[g]).value.path == path
  }

  function VerdictOf(pc: ReadPc): Option<Verdict>
  {
    match pc
    case StillCurrent => Some(Confirmed)
    case Changed(o) => Some(Superseded(o))
    case ReadFailed => Some(Errored)
    case _ => None
  }

  /** The group is at an observation of a path of this system, with or without a check under way. */
  predicate At(call: Call, sys: System, g: nat, busy: bool)
  {
    && g < |sys.runners| && sys.runners[g].busy.Some? == busy
    && Next(call, g, sys.runners[g]).Some? && Next(call, g, sys.runners[g]).value.path in sys.paths.stores
  }

  /** The move drops no check that a group holds on to. */
  ghost predicate Spares(call: Call, sys: System, move: Move)
  {
    move.OnPath? && move.event.CancelRead? ==> !Busy(call, sys, move.path, move.event.t)
  }

  /** The call can be made with observations the paths handed out and a point already allocated. */
  ghost predicate CanOpen(call: Call, sys: System)
  {
    !sys.open && AllHeld(call, sys.paths.stores) && (call.requirement.Some? ==> call.requirement.value in sys.paths.points)
  }

  ghost function Asking(call: Call, o: Retained, t: nat): Move
  {
    OnPath(o.path, StartCheck(t, call.requirement, o.seen))
  }

  ghost predicate CanDo(w: World, call: Call, sys: System, step: Step)
  {
    match step
    case Elsewhere(move) => CanMove(w, sys.paths, move) && Spares(call, sys, move)
    case Open => CanOpen(call, sys)
    case Begin(g, t) =>
      && At(call, sys, g, false)
      && var o := Next(call, g, sys.runners[g]).value;
         FirstPrior(call, sys.runners[g], o, 0).None? && CanMove(w, sys.paths, Asking(call, o, t))
    case Finish(g) =>
      && At(call, sys, g, true)
      && var s := sys.paths.stores[Next(call, g, sys.runners[g]).value.path];
         AtRead(s, sys.runners[g].busy.value) && VerdictOf(s.tasks[sys.runners[g].busy.value].rpc).Some?
    case Reuse(g) =>
      && At(call, sys, g, false)
      && var o := Next(call, g, sys.runners[g]).value;
         var p := FirstPrior(call, sys.runners[g], o, 0);
         p.Some? && CanMove(w, sys.paths, Sharing(call, sys.runners[g], o, p.value))
  }

  ghost function Sharing(call: Call, runner: Runner, o: Retained, p: nat): Move
    requires p < |runner.results| && runner.results[p].0 < |call.observations|
  {
    OnPath(o.path, Share(o.seen, call.observations[runner.results[p].0].seen))
  }

  function Told(runner: Runner, i: nat, v: Verdict): Runner
  {
    runner.(results := runner.results + [(i, v)], busy := None)
  }

  ghost function Do(w: World, call: Call, sys: System, step: Step): System
    requires CanDo(w, call, sys, step)
  {
    match step
    case Elsewhere(move) => sys.(paths := Moved(w, sys.paths, move))
    case Open => sys.(open := true, runners := seq(|call.groups|, _ => Runner([], [], None)))
    case Begin(g, t) =>
      sys.(paths := Moved(w, sys.paths, Asking(call, Next(call, g, sys.runners[g]).value, t)),
           runners := sys.runners[g := sys.runners[g].(busy := Some(t))])
    case Finish(g) =>
      var runner, o := sys.runners[g], Next(call, g, sys.runners[g]).value;
      var verdict := VerdictOf(sys.paths.stores[o.path].tasks[runner.busy.value].rpc).value;
      var n := |runner.results|;
      sys.(runners := sys.runners[g := Told(runner, call.groups[g][n], verdict).(checked := runner.checked + [n])])
    case Reuse(g) =>
      var runner, o := sys.runners[g], Next(call, g, sys.runners[g]).value;
      var p := FirstPrior(call, runner, o, 0).value;
      var verdict := runner.results[p].1;
      sys.(paths := if verdict.Confirmed? then Moved(w, sys.paths, Sharing(call, runner, o, p)) else sys.paths,
           runners := sys.runners[g := Told(runner, call.groups[g][|runner.results|], verdict)])
  }

  // The invariant -------------------------------------------------------------------------------

  /** What a verdict promises, whatever evidence advances later. */
  ghost predicate VerdictOk(w: World, s: Store, requirement: Option<nat>, seen: Observation, v: Verdict)
  {
    match v
    case Confirmed => Fresh(w, s, requirement, seen)
    case Superseded(now) => Fresh(w, s, requirement, now) && now.revision != seen.revision
    case Errored => true
  }

  ghost predicate ResultOk(w: World, call: Call, stores: map<string, Store>, i: nat, v: Verdict)
  {
    && i < |call.observations|
    && var o := call.observations[i];
       o.path in stores && VerdictOk(w, stores[o.path], call.requirement, o.seen, v)
  }

  ghost predicate RunnerOk(w: World, call: Call, stores: map<string, Store>, g: nat, runner: Runner)
  {
    && g < |call.groups| && |runner.results| <= |call.groups[g]|
    && (forall k :: 0 <= k < |runner.results| ==>
          runner.results[k].0 == call.groups[g][k] && ResultOk(w, call, stores, runner.results[k].0, runner.results[k].1))
    && (runner.busy.Some? ==>
          && Next(call, g, runner).Some? && Next(call, g, runner).value.path in stores
          && var o := Next(call, g, runner).value;
             && Asked(stores[o.path], call.requirement, Some(o.seen), runner.busy.value)
             && FirstPrior(call, runner, o, 0).None?)
    && OwnChecks(call, runner)
  }

  /** A group asks once for each exact state. */
  ghost predicate OwnChecks(call: Call, runner: Runner)
  {
    && (forall n :: 0 <= n < |runner.checked| ==> OwnCheck(call, runner, n))
    && (forall m, n :: 0 <= m < n < |runner.checked| ==>
          && OwnCheck(call, runner, m) && OwnCheck(call, runner, n)
          && !SameState(CheckedAt(call, runner, n), CheckedAt(call, runner, m)))
  }

  ghost predicate OwnCheck(call: Call, runner: Runner, n: nat)
  {
    n < |runner.checked| && runner.checked[n] < |runner.results| &&
    runner.results[runner.checked[n]].0 < |call.observations|
  }

  ghost function CheckedAt(call: Call, runner: Runner, n: nat): Observation
    requires OwnCheck(call, runner, n)
  {
    call.observations[runner.results[runner.checked[n]].0].seen
  }

  /** The observation came from one of the paths. */
  ghost predicate Held(stores: map<string, Store>, o: Retained)
  {
    o.path in stores && o.seen in stores[o.path].handed
  }

  ghost predicate AllHeld(call: Call, stores: map<string, Store>)
  {
    forall i :: 0 <= i < |call.observations| ==> Held(stores, call.observations[i])
  }

  ghost predicate RunnersOk(w: World, call: Call, sys: System)
  {
    && |sys.runners| == |call.groups|
    && forall g :: 0 <= g < |sys.runners| ==> RunnerOk(w, call, sys.paths.stores, g, sys.runners[g])
  }

  ghost predicate SystemInv(w: World, call: Call, sys: System)
  {
    && Grouping(call.observations, call.groups)
    && PathsInv(w, sys.paths)
    && (if sys.open then
          && AllHeld(call, sys.paths.stores) && RunnersOk(w, call, sys)
          && (call.requirement.Some? ==> call.requirement.value in sys.paths.points)
        else sys.runners == [])
  }

  // Every step keeps it ---------------------------------------------------------------------------

  lemma FreshGrows(w: World, s: Store, s': Store, requirement: Option<nat>, o: Observation)
    requires Fresh(w, s, requirement, o) && Grows(s, s')
    ensures Fresh(w, s', requirement, o)
  {
    FaithfulGrows(w, s.known.cells, s'.known.cells, o);
  }

  lemma VerdictGrows(w: World, s: Store, s': Store, requirement: Option<nat>, seen: Observation, v: Verdict)
    requires VerdictOk(w, s, requirement, seen, v) && Grows(s, s')
    ensures VerdictOk(w, s', requirement, seen, v)
  {
    hide Fresh, Grows;
    match v
    case Confirmed => FreshGrows(w, s, s', requirement, seen);
    case Superseded(now) => FreshGrows(w, s, s', requirement, now);
    case Errored =>
  }

  lemma HeldStays(call: Call, stores: map<string, Store>, stores': map<string, Store>)
    requires AllHeld(call, stores) && AllMoveOn(stores, stores')
    ensures AllHeld(call, stores')
  {
    hide Grows;
    forall i | 0 <= i < |call.observations| ensures Held(stores', call.observations[i]) {
      assert Held(stores, call.observations[i]);
    }
  }

  lemma ResultStays(
    w: World, call: Call, stores: map<string, Store>, stores': map<string, Store>, i: nat, v: Verdict)
    requires AllMoveOn(stores, stores') && ResultOk(w, call, stores, i, v)
    ensures ResultOk(w, call, stores', i, v)
  {
    hide VerdictOk, Grows;
    var o := call.observations[i];
    VerdictGrows(w, stores[o.path], stores'[o.path], call.requirement, o.seen, v);
  }

  lemma RunnerStays(
    w: World, call: Call, stores: map<string, Store>, stores': map<string, Store>, g: nat, runner: Runner)
    requires AllMoveOn(stores, stores') && RunnerOk(w, call, stores, g, runner)
    requires runner.busy.Some? ==>
               var o := Next(call, g, runner).value; Asked(stores'[o.path], call.requirement, Some(o.seen), runner.busy.value)
    ensures RunnerOk(w, call, stores', g, runner)
  {
    hide MovesOn, ResultOk, Asked, OwnChecks, FirstPrior;
    forall k | 0 <= k < |runner.results| ensures ResultOk(w, call, stores', runner.results[k].0, runner.results[k].1) {
      ResultStays(w, call, stores, stores', runner.results[k].0, runner.results[k].1);
    }
  }

  lemma AskedStays(w: World, call: Call, sys: System, move: Move, g: nat)
    requires CanMove(w, sys.paths, move) && Spares(call, sys, move)
    requires g < |sys.runners| && RunnerOk(w, call, sys.paths.stores, g, sys.runners[g])
    ensures var runner := sys.runners[g];
            runner.busy.Some? ==>
              var o := Next(call, g, runner).value;
              Asked(After(w, sys.paths, move, o.path), call.requirement, Some(o.seen), runner.busy.value)
  {
    hide Apply, Enabled, ResultOk, OwnChecks, FirstPrior;
    var runner := sys.runners[g];
    if runner.busy.Some? {
      var o := Next(call, g, runner).value;
      assert Busy(call, sys, o.path, runner.busy.value);
      if e :| EventAt(move, o.path) == Some(e) {
        TermsStay(w, sys.paths.stores[o.path], e, runner.busy.value);
      }
    }
  }

  /** A move of the paths keeps everything, unless it drops a check a group waits for. */
  lemma MovesKeep(w: World, call: Call, sys: System, move: Move)
    requires ValidWorld(w) && SystemInv(w, call, sys) && CanMove(w, sys.paths, move) && Spares(call, sys, move)
    ensures SystemInv(w, call, sys.(paths := Moved(w, sys.paths, move)))
  {
    hide Grouping, CanMove, PathsInv, RunnerOk, AllHeld, MovesOn, Asked;
    MoveKeeps(w, sys.paths, move);
    if sys.open {
      var stores' := Moved(w, sys.paths, move).stores;
      HeldStays(call, sys.paths.stores, stores');
      forall g | 0 <= g < |sys.runners| ensures RunnerOk(w, call, stores', g, sys.runners[g]) {
        RunnerAt(w, call, sys, g);
        AskedStays(w, call, sys, move, g);
        RunnerStays(w, call, sys.paths.stores, stores', g, sys.runners[g]);
      }
    }
  }

  lemma RunnerAt(w: World, call: Call, sys: System, g: nat)
    requires RunnersOk(w, call, sys) && g < |sys.runners|
    ensures RunnerOk(w, call, sys.paths.stores, g, sys.runners[g])
    ensures sys.runners[g].busy.Some? ==>
              Next(call, g, sys.runners[g]).Some? && Next(call, g, sys.runners[g]).value.path in sys.paths.stores
  {
  }

  lemma RunnerMoves(w: World, call: Call, sys: System, g: nat, runner: Runner)
    requires SystemInv(w, call, sys) && sys.open && g < |sys.runners|
    requires RunnerOk(w, call, sys.paths.stores, g, runner)
    ensures SystemInv(w, call, sys.(runners := sys.runners[g := runner]))
  {
    hide RunnerOk, PathsInv, AllHeld, Grouping;
  }

  lemma OpenKeeps(w: World, call: Call, sys: System)
    requires SystemInv(w, call, sys) && CanOpen(call, sys)
    ensures SystemInv(w, call, Do(w, call, sys, Open))
  {
    hide PathsInv, AllHeld;
    assert forall g :: 0 <= g < |call.groups| ==> OnePath(call.observations, call.groups[g]);
  }

  lemma StartAsks(w: World, s: Store, requirement: Option<nat>, seen: Observation, t: nat)
    requires Enabled(w, s, StartCheck(t, requirement, seen))
    ensures Asked(Apply(w, s, StartCheck(t, requirement, seen)), requirement, Some(seen), t)
  {
    hide Peek, CacheKnowledge.Advance;
  }

  /** Taking up a check changes nothing about the verdicts so far. */
  lemma {:induction false} BusyPrior(call: Call, runner: Runner, busy: Option<nat>, o: Retained, n: nat)
    requires n <= |runner.checked|
    ensures FirstPrior(call, runner.(busy := busy), o, n) == FirstPrior(call, runner, o, n)
    decreases |runner.checked| - n
  {
    if n < |runner.checked| {
      BusyPrior(call, runner, busy, o, n + 1);
    }
  }

  lemma BusyOwnChecks(call: Call, runner: Runner, busy: Option<nat>)
    requires OwnChecks(call, runner)
    ensures OwnChecks(call, runner.(busy := busy))
  {
    var runner' := runner.(busy := busy);
    forall n | 0 <= n < |runner.checked|
      ensures OwnCheck(call, runner', n) && CheckedAt(call, runner', n) == CheckedAt(call, runner, n)
    {
      assert OwnCheck(call, runner, n);
    }
  }

  lemma BeginKeeps(w: World, call: Call, sys: System, g: nat, t: nat)
    requires ValidWorld(w) && SystemInv(w, call, sys) && CanDo(w, call, sys, Begin(g, t))
    ensures SystemInv(w, call, Do(w, call, sys, Begin(g, t)))
  {
    hide Apply, Enabled, ResultOk, AllHeld, PathsInv, Asked, Grouping;
    var runner := sys.runners[g];
    var o := Next(call, g, runner).value;
    var move := Asking(call, o, t);
    MovesKeep(w, call, sys, move);
    StartAsks(w, sys.paths.stores[o.path], call.requirement, o.seen, t);
    var mid := sys.(paths := Moved(w, sys.paths, move));
    assert RunnerOk(w, call, mid.paths.stores, g, runner);
    BusyPrior(call, runner, Some(t), o, 0);
    BusyOwnChecks(call, runner, Some(t));
    RunnerMoves(w, call, mid, g, runner.(busy := Some(t)));
  }

  /** A verdict that holds for the observation the group is at can be recorded. */
  lemma ToldOk(w: World, call: Call, stores: map<string, Store>, g: nat, runner: Runner, v: Verdict)
    requires RunnerOk(w, call, stores, g, runner) && Next(call, g, runner).Some?
    requires ResultOk(w, call, stores, call.groups[g][|runner.results|], v)
    ensures RunnerOk(w, call, stores, g, Told(runner, call.groups[g][|runner.results|], v))
  {
    hide ResultOk;
    var told := Told(runner, call.groups[g][|runner.results|], v);
    forall n | 0 <= n < |told.checked|
      ensures OwnCheck(call, told, n) && CheckedAt(call, told, n) == CheckedAt(call, runner, n)
    {
      assert OwnCheck(call, runner, n);
    }
  }

  lemma {:induction false} NoPrior(call: Call, runner: Runner, o: Retained, n: nat, m: nat)
    requires n <= m < |runner.checked| && OwnCheck(call, runner, m) && FirstPrior(call, runner, o, n).None?
    ensures !SameState(o.seen, CheckedAt(call, runner, m))
    decreases m - n
  {
    if n < m {
      NoPrior(call, runner, o, n + 1, m);
    }
  }

  /** A check that was its state's first is added to the group's own. */
  lemma {:induction false} OwnChecksGrow(call: Call, g: nat, runner: Runner, v: Verdict)
    requires OwnChecks(call, runner) && Next(call, g, runner).Some?
    requires FirstPrior(call, runner, Next(call, g, runner).value, 0).None?
    ensures OwnChecks(call, Told(runner, call.groups[g][|runner.results|], v).(checked := runner.checked + [|runner.results|]))
  {
    var o := Next(call, g, runner).value;
    var told := Told(runner, call.groups[g][|runner.results|], v).(checked := runner.checked + [|runner.results|]);
    forall n | 0 <= n < |told.checked|
      ensures OwnCheck(call, told, n)
      ensures n < |runner.checked| ==> OwnCheck(call, runner, n) && CheckedAt(call, told, n) == CheckedAt(call, runner, n)
    {
      if n < |runner.checked| {
        assert OwnCheck(call, runner, n);
      }
    }
    forall m | 0 <= m < |runner.checked| ensures !SameState(o.seen, CheckedAt(call, told, m)) {
      NoPrior(call, runner, o, 0, m);
    }
  }

  /** What a finished check reports is what the verdict promises. */
  lemma FinishedChecksHold(w: World, s: Store, requirement: Option<nat>, seen: Observation, t: nat)
    requires Inv(w, s) && Asked(s, requirement, Some(seen), t) && VerdictOf(s.tasks[t].rpc).Some?
    ensures VerdictOk(w, s, requirement, seen, VerdictOf(s.tasks[t].rpc).value)
  {
    hide Fresh, HandedOk, FlightsOk, Lane, Clocked, Sound;
    assert TaskOk(w, s, s.tasks[t]);
  }

  lemma FinishKeeps(w: World, call: Call, sys: System, g: nat)
    requires SystemInv(w, call, sys) && CanDo(w, call, sys, Finish(g))
    ensures SystemInv(w, call, Do(w, call, sys, Finish(g)))
  {
    hide Inv, AllHeld, VerdictOk, Grouping, OnTime;
    var runner, stores := sys.runners[g], sys.paths.stores;
    assert RunnerOk(w, call, stores, g, runner);
    var o, n := Next(call, g, runner).value, |runner.results|;
    var v := VerdictOf(stores[o.path].tasks[runner.busy.value].rpc).value;
    FinishedChecksHold(w, stores[o.path], call.requirement, o.seen, runner.busy.value);
    ToldOk(w, call, stores, g, runner, v);
    OwnChecksGrow(call, g, runner, v);
    RunnerMoves(w, call, sys, g, Told(runner, call.groups[g][n], v).(checked := runner.checked + [n]));
  }

  /** A verdict carries over to another observation of the same state, with the evidence. */
  lemma CarriesOver(w: World, s: Store, requirement: Option<nat>, to: Observation, from: Observation, v: Verdict)
    requires Inv(w, s) && Enabled(w, s, Share(to, from)) && VerdictOk(w, s, requirement, from, v)
    ensures var s' := if v.Confirmed? then Apply(w, s, Share(to, from)) else s;
            VerdictOk(w, s', requirement, to, v)
  {
    hide FlightsOk, TasksOk, Lane, Clocked;
    assert Faithful(w, s.known.cells, to) && Faithful(w, s.known.cells, from);
    assert to.revision == from.revision;
  }

  lemma SamePath(call: Call, g: nat, k: nat, l: nat)
    requires Grouping(call.observations, call.groups) && g < |call.groups| && k < |call.groups[g]| && l < |call.groups[g]|
    ensures call.groups[g][k] < |call.observations| && call.groups[g][l] < |call.observations|
    ensures call.observations[call.groups[g][k]].path == call.observations[call.groups[g][l]].path
  {
    assert OnePath(call.observations, call.groups[g]);
  }

  lemma ReuseKeeps(w: World, call: Call, sys: System, g: nat)
    requires ValidWorld(w) && SystemInv(w, call, sys) && CanDo(w, call, sys, Reuse(g))
    ensures SystemInv(w, call, Do(w, call, sys, Reuse(g)))
  {
    hide Apply, Enabled, Inv, AllHeld, VerdictOk, OnTime;
    var runner, stores := sys.runners[g], sys.paths.stores;
    assert RunnerOk(w, call, stores, g, runner);
    var o := Next(call, g, runner).value;
    var p := FirstPrior(call, runner, o, 0).value;
    var (j, v) := runner.results[p];
    SamePath(call, g, p, |runner.results|);
    var move := Sharing(call, runner, o, p);
    CarriesOver(w, stores[o.path], call.requirement, o.seen, call.observations[j].seen, v);
    var mid := if v.Confirmed? then sys.(paths := Moved(w, sys.paths, move)) else sys;
    if v.Confirmed? {
      MovesKeep(w, call, sys, move);
    }
    assert RunnerOk(w, call, mid.paths.stores, g, runner);
    ToldOk(w, call, mid.paths.stores, g, runner, v);
    RunnerMoves(w, call, mid, g, Told(runner, call.groups[g][|runner.results|], v));
  }

  lemma StepKeeps(w: World, call: Call, sys: System, step: Step)
    requires ValidWorld(w) && SystemInv(w, call, sys) && CanDo(w, call, sys, step)
    ensures SystemInv(w, call, Do(w, call, sys, step))
  {
    hide SystemInv, CanMove, Moved;
    match step
    case Elsewhere(move) => MovesKeep(w, call, sys, move);
    case Open => OpenKeeps(w, call, sys);
    case Begin(g, t) => BeginKeeps(w, call, sys, g, t);
    case Finish(g) => FinishKeeps(w, call, sys, g);
    case Reuse(g) => ReuseKeeps(w, call, sys, g);
  }

  /** A group between checks can always go on: by reusing a verdict, or by asking. */
  lemma GroupsNeverStall(w: World, call: Call, sys: System, g: nat, t: nat)
    requires SystemInv(w, call, sys) && g < |sys.runners| && sys.runners[g].busy.None?
    requires Next(call, g, sys.runners[g]).Some?
    requires var path := Next(call, g, sys.runners[g]).value.path;
             path in sys.paths.stores ==> t !in sys.paths.stores[path].tasks
    ensures CanDo(w, call, sys, Begin(g, t)) || CanDo(w, call, sys, Reuse(g))
  {
    hide Enabled, Inv, Grouping, ResultOk, CanMove;
    var runner, o := sys.runners[g], Next(call, g, sys.runners[g]).value;
    assert RunnerOk(w, call, sys.paths.stores, g, runner) && Held(sys.paths.stores, o);
    var s := sys.paths.stores[o.path];
    match FirstPrior(call, runner, o, 0) {
      case None =>
        CheckIsOffered(w, s, call.requirement, o.seen, t);
        PathsAgreeOnTime(w, sys.paths, o.path, StartCheck(t, call.requirement, o.seen));
      case Some(p) =>
        var j := runner.results[p].0;
        SamePath(call, g, p, |runner.results|);
        assert Held(sys.paths.stores, call.observations[j]);
        AlwaysLinked(w, s, Share(o.seen, call.observations[j].seen));
        PathsAgreeOnTime(w, sys.paths, o.path, Share(o.seen, call.observations[j].seen));
    }
  }

  lemma CheckIsOffered(w: World, s: Store, requirement: Option<nat>, seen: Observation, t: nat)
    requires Inv(w, s) && t !in s.tasks && seen in s.handed && (requirement.Some? ==> requirement.value in s.born)
    ensures Enabled(w, s, StartCheck(t, requirement, seen))
  {
    hide FlightsOk, TasksOk, Sound, Lane;
    AlwaysLinked(w, s, StartCheck(t, requirement, seen));
  }

  // Whole calls -------------------------------------------------------------------------------------

  ghost predicate Starts(w: World, call: Call, sys: System)
  {
    && ValidWorld(w) && Grouping(call.observations, call.groups)
    && (forall path :: path in sys.paths.stores ==> exists state :: sys.paths.stores[path] == CacheProtocol.Init(state))
    && sys.paths.now == 0 && sys.paths.points == {0} && !sys.open && sys.runners == []
  }

  datatype Trace = Trace(systems: seq<System>, steps: seq<Step>)

  ghost predicate StepFollows(w: World, call: Call, trace: Trace, i: nat)
    requires |trace.systems| == |trace.steps| + 1 && i < |trace.steps|
  {
    && CanDo(w, call, trace.systems[i], trace.steps[i])
    && trace.systems[i + 1] == Do(w, call, trace.systems[i], trace.steps[i])
  }

  /** Any interleaving, from the first use of the paths on: before the call, and of its groups after it. */
  ghost predicate ValidTrace(w: World, call: Call, trace: Trace)
  {
    && |trace.systems| == |trace.steps| + 1
    && Starts(w, call, trace.systems[0])
    && forall i :: 0 <= i < |trace.steps| ==> StepFollows(w, call, trace, i)
  }

  lemma StartsInv(w: World, call: Call, sys: System)
    requires Starts(w, call, sys)
    ensures SystemInv(w, call, sys)
  {
    hide Inv, Grouping;
    forall path | path in sys.paths.stores ensures Inv(w, sys.paths.stores[path]) {
      var state :| sys.paths.stores[path] == CacheProtocol.Init(state);
      CacheGuarantees.StartsInv(w, state);
    }
  }

  lemma {:induction false} AlwaysSystemInv(w: World, call: Call, trace: Trace, i: nat)
    requires ValidTrace(w, call, trace) && i < |trace.systems|
    ensures SystemInv(w, call, trace.systems[i])
  {
    hide SystemInv, CanDo, Do;
    if i == 0 {
      StartsInv(w, call, trace.systems[0]);
    } else {
      AlwaysSystemInv(w, call, trace, i - 1);
      assert StepFollows(w, call, trace, i - 1);
      StepKeeps(w, call, trace.systems[i - 1], trace.steps[i - 1]);
    }
  }

  ghost predicate Done(call: Call, sys: System)
  {
    |sys.runners| == |call.groups| &&
    forall g :: 0 <= g < |sys.runners| ==> |sys.runners[g].results| == |call.groups[g]|
  }

  function ResultsOf(sys: System): seq<seq<(nat, Verdict)>>
  {
    seq(|sys.runners|, g requires 0 <= g < |sys.runners| => sys.runners[g].results)
  }

  /** Finished groups have told every observation of theirs, so collecting leaves no slot empty. */
  lemma FinishedCallsAreComplete(w: World, call: Call, trace: Trace, i: nat)
    requires ValidTrace(w, call, trace) && i < |trace.systems| && Done(call, trace.systems[i])
    ensures Grouping(call.observations, call.groups) && Complete(call.groups, ResultsOf(trace.systems[i]))
  {
    hide Grouping, PathsInv, AllHeld, ResultOk;
    AlwaysSystemInv(w, call, trace, i);
    var sys := trace.systems[i];
    forall g, k | 0 <= g < |call.groups| && 0 <= k < |call.groups[g]|
      ensures ResultsOf(sys)[g][k].0 == call.groups[g][k]
    {
      assert RunnerOk(w, call, sys.paths.stores, g, sys.runners[g]);
    }
  }

  /** A group never asks twice for one exact state. */
  lemma OneCheckPerState(w: World, call: Call, trace: Trace, i: nat, g: nat, m: nat, n: nat)
    requires ValidTrace(w, call, trace) && i < |trace.systems| && g < |trace.systems[i].runners|
    requires m < n < |trace.systems[i].runners[g].checked|
    ensures var runner := trace.systems[i].runners[g];
            && OwnCheck(call, runner, m) && OwnCheck(call, runner, n)
            && !SameState(CheckedAt(call, runner, n), CheckedAt(call, runner, m))
  {
    hide PathsInv, AllHeld, Grouping;
    AlwaysSystemInv(w, call, trace, i);
    var sys := trace.systems[i];
    assert RunnerOk(w, call, sys.paths.stores, g, sys.runners[g]);
  }

  /** A verdict's observation shows a state current since the point, and the evidence says so. */
  ghost predicate VerdictSince(w: World, s: Store, seen: Observation, v: Verdict, point: nat)
  {
    match v
    case Confirmed =>
      CurrentSince(w, s, seen, point) && seen.cell < |s.known.cells| && s.known.cells[seen.cell].mark >= point
    case Superseded(now) => CurrentSince(w, s, now, point) && now.revision != seen.revision
    case Errored => true
  }

  lemma VerdictIsTrue(w: World, s: Store, seen: Observation, v: Verdict, point: nat)
    requires Inv(w, s) && point in s.born && VerdictOk(w, s, Some(point), seen, v)
    ensures VerdictSince(w, s, seen, v, point)
  {
    hide Inv, CurrentSince;
    match v
    case Confirmed => EvidenceIsTrue(w, s, seen, point);
    case Superseded(now) => EvidenceIsTrue(w, s, now, point);
    case Errored =>
  }

  /**
   Whatever a group reports meets the requirement: a confirmed observation, and the state
   reported instead of a changed one, were current at some moment not before the barrier,
   and the evidence says so. It makes no difference whether the group asked for it or took
   the verdict over from an equal state.
   */
  lemma ManyChecksAreFresh(w: World, call: Call, trace: Trace, i: nat, g: nat, k: nat, barrier: nat)
    requires ValidTrace(w, call, trace) && i < |trace.systems| && call.requirement == Some(barrier)
    requires g < |trace.systems[i].runners| && k < |trace.systems[i].runners[g].results|
    ensures var (j, v) := trace.systems[i].runners[g].results[k];
            && g < |call.groups| && k < |call.groups[g]| && j == call.groups[g][k] < |call.observations|
            && var o := call.observations[j];
               o.path in trace.systems[i].paths.stores &&
               VerdictSince(w, trace.systems[i].paths.stores[o.path], o.seen, v, barrier)
  {
    hide Grouping, VerdictSince, Inv, AllHeld, OwnChecks, VerdictOk;
    AlwaysSystemInv(w, call, trace, i);
    var sys := trace.systems[i];
    assert RunnerOk(w, call, sys.paths.stores, g, sys.runners[g]);
    var (j, v) := sys.runners[g].results[k];
    var o := call.observations[j];
    VerdictIsTrue(w, sys.paths.stores[o.path], o.seen, v, barrier);
  }

  // One barrier for all paths ---------------------------------------------------------------------------

  lemma StepMovesOn(w: World, call: Call, sys: System, step: Step)
    requires ValidWorld(w) && SystemInv(w, call, sys) && CanDo(w, call, sys, step)
    ensures AllMoveOn(sys.paths.stores, Do(w, call, sys, step).paths.stores)
  {
    hide PathsInv, CanMove, Grouping, RunnersOk, AllHeld, MovesOn, Moved;
    match step
    case Elsewhere(move) => MoveKeeps(w, sys.paths, move);
    case Begin(g, t) => MoveKeeps(w, sys.paths, Asking(call, Next(call, g, sys.runners[g]).value, t));
    case Reuse(g) =>
      var o := Next(call, g, sys.runners[g]).value;
      MoveKeeps(w, sys.paths, Sharing(call, sys.runners[g], o, FirstPrior(call, sys.runners[g], o, 0).value));
      NothingMoves(sys.paths.stores);
    case Open => NothingMoves(sys.paths.stores);
    case Finish(_) => NothingMoves(sys.paths.stores);
  }

  lemma NothingMoves(stores: map<string, Store>)
    ensures AllMoveOn(stores, stores)
  {
    hide Grows;
    forall path | path in stores ensures MovesOn(stores[path], stores[path]) {
      Same(stores[path]);
    }
  }

  lemma {:induction false} PathsGrow(w: World, call: Call, trace: Trace, i: nat, j: nat, path: string)
    requires ValidTrace(w, call, trace) && i <= j < |trace.systems| && path in trace.systems[i].paths.stores
    ensures path in trace.systems[j].paths.stores
    ensures Grows(trace.systems[i].paths.stores[path], trace.systems[j].paths.stores[path])
    decreases j - i
  {
    hide SystemInv, CanDo, Do, Grows;
    if i < j {
      PathsGrow(w, call, trace, i, j - 1, path);
      AlwaysSystemInv(w, call, trace, j - 1);
      assert StepFollows(w, call, trace, j - 1);
      StepMovesOn(w, call, trace.systems[j - 1], trace.steps[j - 1]);
      assert MovesOn(trace.systems[j - 1].paths.stores[path], trace.systems[j].paths.stores[path]);
      GrowsAgain(trace.systems[i].paths.stores[path], trace.systems[j - 1].paths.stores[path],
                 trace.systems[j].paths.stores[path]);
    } else {
      Same(trace.systems[i].paths.stores[path]);
    }
  }

  /** A barrier is one moment for all paths: each remembers the state it then had. */
  lemma BarrierIsOneMoment(w: World, call: Call, trace: Trace, b: nat, i: nat, barrier: nat, path: string)
    requires ValidTrace(w, call, trace) && b < i < |trace.systems| && trace.steps[b] == Elsewhere(Tick(barrier))
    requires path in trace.systems[i].paths.stores
    ensures path in trace.systems[b].paths.stores && trace.systems[b].paths.stores[path].hist != []
    ensures var s, s' := trace.systems[b].paths.stores[path], trace.systems[i].paths.stores[path];
            s.hist <= s'.hist && barrier in s'.born && s'.born[barrier] == |s.hist| - 1
  {
    hide SystemInv, Inv;
    assert StepFollows(w, call, trace, b);
    SamePaths(w, call, trace, b + 1, i);
    PathsGrow(w, call, trace, b, i, path);
    PathsGrow(w, call, trace, b + 1, i, path);
  }

  lemma {:induction false} SamePaths(w: World, call: Call, trace: Trace, i: nat, j: nat)
    requires ValidTrace(w, call, trace) && i <= j < |trace.systems|
    ensures trace.systems[j].paths.stores.Keys == trace.systems[i].paths.stores.Keys
    decreases j - i
  {
    hide SystemInv, CanDo, Do, MovesOn;
    if i < j {
      SamePaths(w, call, trace, i, j - 1);
      AlwaysSystemInv(w, call, trace, j - 1);
      assert StepFollows(w, call, trace, j - 1);
      StepMovesOn(w, call, trace.systems[j - 1], trace.steps[j - 1]);
    }
  }

  /** The observation shows a state its path had at some moment from `floor` on. */
  ghost predicate ShownFrom(w: World, hist: seq<State>, floor: nat, o: Observation)
  {
    exists m :: floor <= m < |hist| && Shows(w, hist[m], o)
  }

  /**
   So the verdicts of one call belong together: every confirmed observation, on whatever
   path, shows a state that path had when the barrier was taken or later, and so does every
   state reported instead.
   */
  lemma VerdictsFollowTheBarrier(
    w: World, call: Call, trace: Trace, b: nat, i: nat, g: nat, k: nat, barrier: nat)
    requires ValidTrace(w, call, trace) && b < i < |trace.systems| && call.requirement == Some(barrier)
    requires trace.steps[b] == Elsewhere(Tick(barrier))
    requires g < |trace.systems[i].runners| && k < |trace.systems[i].runners[g].results|
    ensures var (j, v) := trace.systems[i].runners[g].results[k];
            && j < |call.observations|
            && var o := call.observations[j];
               && o.path in trace.systems[b].paths.stores && o.path in trace.systems[i].paths.stores
               && var before, now := trace.systems[b].paths.stores[o.path].hist, trace.systems[i].paths.stores[o.path].hist;
                  && before != [] && before <= now
                  && (v.Confirmed? ==> ShownFrom(w, now, |before| - 1, o.seen))
                  && (v.Superseded? ==> ShownFrom(w, now, |before| - 1, v.now))
  {
    ManyChecksAreFresh(w, call, trace, i, g, k, barrier);
    var (j, v) := trace.systems[i].runners[g].results[k];
    BarrierIsOneMoment(w, call, trace, b, i, barrier, call.observations[j].path);
  }
}
