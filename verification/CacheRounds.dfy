/** What a mutation captures when it takes the lane, it still has when its outcome is settled. */
module CacheRounds {
  import opened Sequences
  import opened CacheKnowledge
  import opened CacheProtocol
  import opened CacheInvariant
  import opened CacheSteps
  import opened CacheGuarantees
  import opened CacheSuperseded

  predicate InRound(pc: MutationPc, cached: Option<nat>)
  {
    match pc
    case Armed(c) => c == cached
    case Invoked(c, _) => c == cached
    case MutationReplied(c, _, _) => c == cached
    case _ => false
  }

  predicate RoundOver(pc: MutationPc)
  {
    pc.Done? || pc.FoundMissing? || pc.Refused? || pc.Failed?
  }

  /** The mutation is in the round it started with this capture, or past it. */
  predicate InRoundSince(s: Store, t: nat, op: Operation, cached: Option<nat>)
  {
    AtMutation(s, t) && s.tasks[t].op == op && (InRound(s.tasks[t].mpc, cached) || RoundOver(s.tasks[t].mpc))
  }

  lemma RoundGoesOn(w: World, s: Store, e: Event, t: nat, op: Operation, cached: Option<nat>)
    requires Enabled(w, s, e) && InRoundSince(s, t, op, cached) && e != CancelMutation(t)
    ensures InRoundSince(Apply(w, s, e), t, op, cached)
  {
    hide Apply, Enabled;
    if TaskOf(e) == Some(t) {
      OwnEventGoesOn(w, s, e, t, op, cached);
    } else {
      OthersStay(w, s, e, t);
    }
  }

  lemma OwnEventGoesOn(w: World, s: Store, e: Event, t: nat, op: Operation, cached: Option<nat>)
    requires Enabled(w, s, e) && InRoundSince(s, t, op, cached) && e != CancelMutation(t) && TaskOf(e) == Some(t)
    ensures InRoundSince(Apply(w, s, e), t, op, cached)
  {
    hide Linked, InstallApplied, InstallAbsent, CaptureExpected, InvalidateExpected, ServeOutcome;
    assert e.Invoke? || e.ServeMutation? || e.FailMutation? || e.LoseReply? || e.Reconcile?;
  }

  lemma {:induction false} RoundLasts(
    w: World, run: Run, i: nat, j: nat, t: nat, op: Operation, cached: Option<nat>)
    requires ValidRun(w, run) && i <= j < |run.states| && InRoundSince(run.states[i], t, op, cached)
    requires forall k :: i <= k < j ==> run.events[k] != CancelMutation(t)
    ensures InRoundSince(run.states[j], t, op, cached)
    decreases j - i
  {
    hide Apply, Enabled, InRoundSince;
    if i < j {
      RoundLasts(w, run, i, j - 1, t, op, cached);
      assert Follows(w, run, j - 1);
      RoundGoesOn(w, run.states[j - 1], run.events[j - 1], t, op, cached);
    }
  }

  /**
   If the expected state is cached when the mutation takes the lane, the cached entry's
   evidence reaches the invocation point once the mutation has applied, even though the
   entry shares no cell with the caller's observation, was evicted meanwhile or both.
   */
  lemma MatchingEntryAdvancesToo(w: World, run: Run, i: nat, j: nat, t: nat)
    requires ValidRun(w, run) && i < j < |run.events|
    requires run.events[i] == AcquireMutation(t) && run.events[j] == Reconcile(t)
    requires forall k :: i < k < j ==> run.events[k] != CancelMutation(t)
    requires AtMutation(run.states[i], t) && run.states[i].known.entry.Some?
    requires run.states[i].known.entry.value.revision == ExpectedRevision(run.states[i].tasks[t].op)
    ensures AtMutation(run.states[j], t) && run.states[j].tasks[t].mpc.MutationReplied?
    ensures var pc, c := run.states[j].tasks[t].mpc, run.states[i].known.entry.value.cell;
            pc.outcome.Applied? ==>
              c < |run.states[j + 1].known.cells| && run.states[j + 1].known.cells[c].mark >= pc.point
  {
    hide Apply, CurrentSince;
    assert Follows(w, run, i) && Follows(w, run, j);
    var s, c := run.states[i], run.states[i].known.entry.value.cell;
    var op := s.tasks[t].op;
    MatchingEntryIsCaptured(w, s, t);
    AcquiredTask(w, s, t);
    var cached := run.states[i + 1].tasks[t].mpc.cached;
    RoundLasts(w, run, i + 1, j, t, op, cached);
    var pc := run.states[j].tasks[t].mpc;
    if pc.outcome.Applied? {
      if cached == Some(c) {
        CapturedEntryAdvancesToo(w, run, j, t);
      } else {
        ExpectedAdvancesOnlyWhenApplied(w, run, j, t);
      }
    }
  }

  lemma AcquiredTask(w: World, s: Store, t: nat)
    requires Enabled(w, s, AcquireMutation(t))
    ensures var s' := Apply(w, s, AcquireMutation(t));
            AtMutation(s', t) && s'.tasks[t].mpc.Armed? && InRoundSince(s', t, s.tasks[t].op, s'.tasks[t].mpc.cached)
  {
    hide CaptureExpected;
  }
}
