/** Whole calls, from their start to their answer: what a caller may conclude from when it called. */
module CacheCalls {
  import opened Sequences
  import opened CacheKnowledge
  import opened CacheProtocol
  import opened CacheInvariant
  import opened CacheSteps
  import opened CacheGuarantees
  import opened CacheSuperseded

  // Reads and checks ---------------------------------------------------------------------------

  /** A read or a check keeps its terms for as long as it is not dropped. */
  lemma TermsStay(w: World, s: Store, e: Event, t: nat)
    requires Enabled(w, s, e) && AtRead(s, t) && e != CancelRead(t)
    ensures AtRead(Apply(w, s, e), t)
    ensures Apply(w, s, e).tasks[t].requirement == s.tasks[t].requirement
    ensures Apply(w, s, e).tasks[t].fallback == s.tasks[t].fallback
  {
    hide Apply, Enabled;
    if TaskOf(e) == Some(t) {
      OwnTermsStay(w, s, e, t);
    } else {
      OthersStay(w, s, e, t);
    }
  }

  lemma OwnTermsStay(w: World, s: Store, e: Event, t: nat)
    requires Enabled(w, s, e) && AtRead(s, t) && e != CancelRead(t) && TaskOf(e) == Some(t)
    ensures AtRead(Apply(w, s, e), t)
    ensures Apply(w, s, e).tasks[t].requirement == s.tasks[t].requirement
    ensures Apply(w, s, e).tasks[t].fallback == s.tasks[t].fallback
  {
    hide Linked, InstallFetched, InstallAbsent, ConfirmUnchanged, Peek, PresentSeed, ReadReply, WakePc,
      InstallApplied, CaptureExpected, InvalidateExpected, ServeOutcome, CacheKnowledge.Advance;
  }

  predicate Asked(s: Store, requirement: Option<nat>, fallback: Option<Observation>, t: nat)
  {
    AtRead(s, t) && s.tasks[t].requirement == requirement && s.tasks[t].fallback == fallback
  }

  lemma {:induction false} TermsLast(
    w: World, run: Run, i: nat, j: nat, t: nat, requirement: Option<nat>, fallback: Option<Observation>)
    requires ValidRun(w, run) && i <= j < |run.states| && Asked(run.states[i], requirement, fallback, t)
    requires forall k :: i <= k < j ==> run.events[k] != CancelRead(t)
    ensures Asked(run.states[j], requirement, fallback, t)
    decreases j - i
  {
    hide Apply, Enabled;
    if i < j {
      TermsLast(w, run, i, j - 1, t, requirement, fallback);
      assert Follows(w, run, j - 1);
      TermsStay(w, run.states[j - 1], run.events[j - 1], t);
    }
  }

  lemma StartSetsTerms(w: World, s: Store, e: Event)
    requires Enabled(w, s, e) && (e.StartRead? || e.StartCheck?)
    ensures Asked(Apply(w, s, e), e.requirement, if e.StartCheck? then Some(e.observed) else None, e.t)
  {
    hide Peek, CacheKnowledge.Advance;
  }

  /** The observation shows a state that was current at step `b` of the run or later. */
  ghost predicate ShownSince(w: World, run: Run, b: nat, j: nat, o: Observation)
    requires b < |run.states| && j < |run.states|
  {
    exists k: nat :: |run.states[b].hist| - 1 <= k < |run.states[j].hist| && Shows(w, run.states[j].hist[k], o)
  }

  lemma SinceTheBarrier(w: World, run: Run, b: nat, j: nat, o: Observation, barrier: nat)
    requires ValidRun(w, run) && b < j < |run.states| && run.events[b] == Allocate(barrier)
    requires CurrentSince(w, run.states[j], o, barrier)
    ensures ShownSince(w, run, b, j, o)
  {
    hide Shows;
    PointsMarkTheirMoment(w, run, b, j, 0, barrier);
  }

  /**
   A read called after a barrier was taken returns a state that was current when the barrier
   was taken or later, whatever happened in between.
   */
  lemma ReadsFollowTheirBarrier(w: World, run: Run, b: nat, i: nat, j: nat, t: nat, barrier: nat)
    requires ValidRun(w, run) && b < i < j < |run.states| && run.events[b] == Allocate(barrier)
    requires run.events[i] == StartRead(t, Some(barrier)) && forall k :: i < k < j ==> run.events[k] != CancelRead(t)
    ensures AtRead(run.states[j], t)
    ensures run.states[j].tasks[t].rpc.Got? ==> ShownSince(w, run, b, j, run.states[j].tasks[t].rpc.observed)
  {
    hide Apply, ShownSince, CurrentSince;
    assert Follows(w, run, i);
    StartSetsTerms(w, run.states[i], run.events[i]);
    TermsLast(w, run, i + 1, j, t, Some(barrier), None);
    if run.states[j].tasks[t].rpc.Got? {
      PointsMarkTheirMoment(w, run, b, j, 0, barrier);
      ReadsAreFresh(w, run, j, t, barrier);
      SinceTheBarrier(w, run, b, j, run.states[j].tasks[t].rpc.observed, barrier);
    }
  }

  /** The same for a check: what it confirms, or reports instead, was current since the barrier was taken. */
  lemma ChecksFollowTheirBarrier(
    w: World, run: Run, b: nat, i: nat, j: nat, t: nat, barrier: nat, o: Observation)
    requires ValidRun(w, run) && b < i < j < |run.states| && run.events[b] == Allocate(barrier)
    requires run.events[i] == StartCheck(t, Some(barrier), o) && forall k :: i < k < j ==> run.events[k] != CancelRead(t)
    ensures AtRead(run.states[j], t)
    ensures run.states[j].tasks[t].rpc.StillCurrent? ==> ShownSince(w, run, b, j, o)
    ensures run.states[j].tasks[t].rpc.Changed? ==>
              var now := run.states[j].tasks[t].rpc.current;
              ShownSince(w, run, b, j, now) && now.revision != o.revision
  {
    hide Apply, ShownSince, CurrentSince;
    assert Follows(w, run, i);
    StartSetsTerms(w, run.states[i], run.events[i]);
    TermsLast(w, run, i + 1, j, t, Some(barrier), Some(o));
    PointsMarkTheirMoment(w, run, b, j, 0, barrier);
    ChecksAreFresh(w, run, j, t, barrier);
    var pc := run.states[j].tasks[t].rpc;
    if pc.StillCurrent? {
      SinceTheBarrier(w, run, b, j, o, barrier);
    } else if pc.Changed? {
      SinceTheBarrier(w, run, b, j, pc.current, barrier);
    }
  }

  // Mutations ---------------------------------------------------------------------------------------

  function PointOfPc(pc: MutationPc): Option<nat>
  {
    match pc
    case Invoked(_, point) => Some(point)
    case MutationReplied(_, point, _) => Some(point)
    case Done(_, point, _) => Some(point)
    case FoundMissing(_, point, _) => Some(point)
    case Refused(point, _) => Some(point)
    case _ => None
  }

  /** The mutation is still the one that was called, and invoked, if at all, since then. */
  ghost predicate CalledSince(s: Store, t: nat, op: Operation, floor: int)
  {
    && AtMutation(s, t) && s.tasks[t].op == op
    && var point := PointOfPc(s.tasks[t].mpc);
       point.Some? ==> point.value in s.born && s.born[point.value] >= floor
  }

  lemma CallGoesOn(w: World, s: Store, e: Event, t: nat, op: Operation, floor: int)
    requires ValidWorld(w) && Inv(w, s) && Enabled(w, s, e) && CalledSince(s, t, op, floor) && floor < |s.hist|
    requires e != CancelMutation(t)
    ensures CalledSince(Apply(w, s, e), t, op, floor) && floor < |Apply(w, s, e).hist|
  {
    hide Apply, Enabled, Inv;
    EventKeeps(w, s, e);
    if TaskOf(e) == Some(t) {
      OwnCallGoesOn(w, s, e, t, op, floor);
    } else {
      OthersStay(w, s, e, t);
    }
  }

  lemma OwnCallGoesOn(w: World, s: Store, e: Event, t: nat, op: Operation, floor: int)
    requires Enabled(w, s, e) && CalledSince(s, t, op, floor) && floor < |s.hist|
    requires e != CancelMutation(t) && TaskOf(e) == Some(t)
    ensures CalledSince(Apply(w, s, e), t, op, floor)
  {
    hide Linked, Reconciled, CaptureExpected, ServeOutcome;
    assert e.AcquireMutation? || e.Invoke? || e.ServeMutation? || e.FailMutation? || e.LoseReply? || e.Reconcile?;
    if e.Reconcile? {
      ReconcileGoesOn(w, s, t, op, floor);
    }
  }

  lemma ReconcileGoesOn(w: World, s: Store, t: nat, op: Operation, floor: int)
    requires Enabled(w, s, Reconcile(t)) && CalledSince(s, t, op, floor)
    ensures CalledSince(Reconciled(s, t), t, op, floor)
  {
    hide InstallApplied, InstallAbsent, InvalidateExpected;
  }

  lemma {:induction false} CallLasts(w: World, run: Run, i: nat, j: nat, t: nat, op: Operation, floor: int)
    requires ValidRun(w, run) && i <= j < |run.states| && CalledSince(run.states[i], t, op, floor)
    requires floor < |run.states[i].hist| && forall k :: i <= k < j ==> run.events[k] != CancelMutation(t)
    ensures CalledSince(run.states[j], t, op, floor) && floor < |run.states[j].hist|
    decreases j - i
  {
    hide Apply, Enabled, CalledSince, Inv;
    if i < j {
      CallLasts(w, run, i, j - 1, t, op, floor);
      AlwaysInv(w, run, j - 1);
      assert Follows(w, run, j - 1);
      CallGoesOn(w, run.states[j - 1], run.events[j - 1], t, op, floor);
    }
  }

  /**
   A mutation's answer is about its own operation and rests on a state that was current since
   it was called: the one it replaced, the absence it found, or the one that refused it.
   */
  lemma AnswersFollowTheCall(w: World, run: Run, i: nat, j: nat, t: nat, op: Operation)
    requires ValidRun(w, run) && i < j < |run.states| && run.events[i] == StartMutation(t, op)
    requires forall k :: i < k < j ==> run.events[k] != CancelMutation(t)
    ensures AtMutation(run.states[j], t) && run.states[j].tasks[t].op == op
    ensures var floor := |run.states[i].hist| - 1;
            match run.states[j].tasks[t].mpc
            case Done(_, _, at) => at >= floor
            case FoundMissing(_, _, at) => at >= floor
            case Refused(_, at) => at >= floor
            case _ => true
  {
    hide Apply, FlightsOk, HandedOk, Lane, Sound;
    assert Follows(w, run, i);
    CallStarts(w, run.states[i], t, op);
    CallLasts(w, run, i + 1, j, t, op, |run.states[i].hist| - 1);
    AlwaysInv(w, run, j);
    assert TaskOk(w, run.states[j], run.states[j].tasks[t]);
  }

  lemma CallStarts(w: World, s: Store, t: nat, op: Operation)
    requires Enabled(w, s, StartMutation(t, op))
    ensures var s' := Apply(w, s, StartMutation(t, op));
            CalledSince(s', t, op, |s.hist| - 1) && s'.hist == s.hist && s.hist != []
  {
  }
}
