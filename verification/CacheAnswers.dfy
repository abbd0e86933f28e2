/** What readers and writers of a path are told, and exactly when: over runs, and event by event. */
module CacheAnswers {
  import opened Sequences
  import opened CacheKnowledge
  import opened CacheProtocol
  import opened CacheInvariant
  import opened CacheSteps
  import opened CacheGuarantees
  import opened CacheSuperseded
  import opened CachePaths

  // Mutations: what an answer means ------------------------------------------------------------

  /**
   A receipt shows the state the mutation left in place of the one it expected; a found
   absence and a refusal each rest on a state that really was there after the invocation.
   */
  lemma MutationAnswersAreTrue(w: World, run: Run, i: nat, t: nat)
    requires ValidRun(w, run) && i < |run.states| && AtMutation(run.states[i], t)
    ensures var s, op := run.states[i], run.states[i].tasks[t].op;
            match s.tasks[t].mpc
            case Done(o, point, at) =>
              && Since(s, point, at) && Revision(s.hist[at]) == ExpectedRevision(op)
              && at + 1 < |s.hist| && ResultOf(w, op, s.hist[at + 1]) && Shows(w, s.hist[at + 1], o)
              && (!op.Delete? ==> o.value == Some(op.value))
            case FoundMissing(o, point, at) =>
              op.Delete? && Since(s, point, at) && s.hist[at] == Absent && Shows(w, Absent, o)
            case Refused(point, at) =>
              && Since(s, point, at) && Revision(s.hist[at]) != ExpectedRevision(op)
              && (op.Delete? ==> s.hist[at].Present?)
            case _ => true
  {
    hide FlightsOk, HandedOk, Lane, Sound, Clocked;
    AlwaysInv(w, run, i);
    assert TaskOk(w, run.states[i], run.states[i].tasks[t]);
  }

  predicate Unanswered(pc: MutationPc)
  {
    pc.Failed? || (pc.MutationReplied? && (pc.outcome.Definite? || pc.outcome.InDoubt?))
  }

  /** The attempt failed or its reply was lost at step `k`, and no other mutation took its place. */
  ghost predicate Blamed(run: Run, k: nat, i: nat, t: nat)
  {
    && k < i <= |run.events| && (run.events[k] == FailMutation(t) || run.events[k] == LoseReply(t))
    && forall m :: k < m < i ==> !(run.events[m].StartMutation? && run.events[m].t == t)
  }

  lemma {:induction false} UnansweredIsBlamed(w: World, run: Run, i: nat, t: nat) returns (k: nat)
    requires ValidRun(w, run) && i < |run.states| && AtMutation(run.states[i], t)
    requires Unanswered(run.states[i].tasks[t].mpc)
    ensures Blamed(run, k, i, t)
  {
    hide Apply, Enabled, Inv;
    if i == 0 {
      StartsEmpty(w, run, t);
    } else {
      assert Follows(w, run, i - 1);
      var s, e := run.states[i - 1], run.events[i - 1];
      if e == FailMutation(t) || e == LoseReply(t) {
        k := i - 1;
      } else {
        AlwaysInv(w, run, i - 1);
        StaysUnanswered(w, s, e, t);
        k := UnansweredIsBlamed(w, run, i - 1, t);
      }
    }
  }

  lemma StartsEmpty(w: World, run: Run, t: nat)
    requires ValidRun(w, run)
    ensures t !in run.states[0].tasks
  {
    var state :| run.states[0] == CacheProtocol.Init(state);
  }

  lemma StaysUnanswered(w: World, s: Store, e: Event, t: nat)
    requires Inv(w, s) && Enabled(w, s, e) && AtMutation(Apply(w, s, e), t)
    requires Unanswered(Apply(w, s, e).tasks[t].mpc) && e != FailMutation(t) && e != LoseReply(t)
    ensures AtMutation(s, t) && Unanswered(s.tasks[t].mpc) && !(e.StartMutation? && e.t == t)
  {
    hide Apply, Enabled, Inv;
    if TaskOf(e) != Some(t) {
      OthersStay(w, s, e, t);
    } else {
      ReadersStayReaders(w, s, e);
      OwnStaysUnanswered(w, s, e, t);
    }
  }

  lemma ReadersStayReaders(w: World, s: Store, e: Event)
    requires Enabled(w, s, e)
    ensures IsRead(e) && e.t in Apply(w, s, e).tasks ==> AtRead(Apply(w, s, e), e.t)
  {
    hide Apply;
    if IsRead(e) && e.t in s.tasks && e != CancelRead(e.t) {
      ReaderMoves(w, s, e);
    } else if IsRead(e) {
      ReaderComesOrGoes(w, s, e);
    }
  }

  lemma ReaderComesOrGoes(w: World, s: Store, e: Event)
    requires Enabled(w, s, e) && IsRead(e) && (e.t !in s.tasks || e.CancelRead?)
    ensures e.t in Apply(w, s, e).tasks ==> AtRead(Apply(w, s, e), e.t)
  {
    hide Linked, Peek, CacheKnowledge.Advance;
  }

  lemma ReaderMoves(w: World, s: Store, e: Event)
    requires Enabled(w, s, e) && IsRead(e) && e.t in s.tasks && !e.CancelRead?
    ensures AtRead(Apply(w, s, e), e.t)
  {
    hide Linked, Peek, CacheKnowledge.Advance, InstallFetched, InstallAbsent, ConfirmUnchanged, PresentSeed, ReadReply, WakePc;
  }

  lemma OwnStaysUnanswered(w: World, s: Store, e: Event, t: nat)
    requires Inv(w, s) && Enabled(w, s, e) && !IsRead(e) && AtMutation(Apply(w, s, e), t) && TaskOf(e) == Some(t)
    requires Unanswered(Apply(w, s, e).tasks[t].mpc) && e != FailMutation(t) && e != LoseReply(t)
    ensures AtMutation(s, t) && Unanswered(s.tasks[t].mpc) && !(e.StartMutation? && e.t == t)
  {
    hide Linked, InstallApplied, InstallAbsent, CaptureExpected, InvalidateExpected, CacheKnowledge.Advance, FlightsOk,
      HandedOk, Lane, Sound, Clocked;
    if e.Reconcile? {
      assert TaskOk(w, s, s.tasks[t]);
    }
  }

  /** A mutation fails only because its attempt failed or its reply was lost. */
  lemma FailuresAreBlamed(w: World, run: Run, i: nat, t: nat)
    requires ValidRun(w, run) && i < |run.states| && AtMutation(run.states[i], t) && run.states[i].tasks[t].mpc.Failed?
    ensures exists k :: Blamed(run, k, i, t)
  {
    var k := UnansweredIsBlamed(w, run, i, t);
  }

  // Mutations: what an outcome is told as --------------------------------------------------------

  predicate Replied(s: Store, t: nat, op: Operation, outcome: Outcome)
  {
    AtMutation(s, t) && s.tasks[t].op == op && s.tasks[t].mpc.MutationReplied? && s.tasks[t].mpc.outcome == outcome
  }

  predicate Disturbs(e: Event, t: nat)
  {
    e == LoseReply(t) || e == CancelMutation(t) || e == Reconcile(t)
  }

  lemma ReplyStays(w: World, s: Store, e: Event, t: nat, op: Operation, outcome: Outcome)
    requires Enabled(w, s, e) && Replied(s, t, op, outcome) && !Disturbs(e, t)
    ensures Replied(Apply(w, s, e), t, op, outcome)
  {
    hide Apply;
    assert TaskOf(e) != Some(t);
    OthersStay(w, s, e, t);
  }

  lemma {:induction false} ReplyLasts(
    w: World, run: Run, i: nat, j: nat, t: nat, op: Operation, outcome: Outcome)
    requires ValidRun(w, run) && i <= j < |run.states| && Replied(run.states[i], t, op, outcome)
    requires forall k :: i <= k < j ==> !Disturbs(run.events[k], t)
    ensures Replied(run.states[j], t, op, outcome)
    decreases j - i
  {
    hide Apply, Enabled, Replied;
    if i < j {
      ReplyLasts(w, run, i, j - 1, t, op, outcome);
      assert Follows(w, run, j - 1);
      ReplyStays(w, run.states[j - 1], run.events[j - 1], t, op, outcome);
    }
  }

  /**
   A mutation whose reply arrives is told what the backend decided: a receipt exactly if the
   expected revision was current, success for deleting what is gone, refusal otherwise.
   */
  lemma ServedMutationsAreToldSo(w: World, run: Run, i: nat, j: nat, t: nat, token: Token)
    requires ValidRun(w, run) && i < j < |run.events|
    requires run.events[i] == ServeMutation(t, token) && run.events[j] == Reconcile(t)
    requires forall k :: i < k < j ==> !Disturbs(run.events[k], t)
    ensures AtMutation(run.states[i], t) && AtMutation(run.states[j + 1], t) && run.states[i].hist != []
    ensures var s, op := run.states[i], run.states[i].tasks[t].op;
            var now, at, pc := s.hist[|s.hist| - 1], |s.hist| - 1, run.states[j + 1].tasks[t].mpc;
            if Revision(now) == ExpectedRevision(op) then pc.Done? && pc.at == at
            else if now.Absent? && op.Delete? then pc.FoundMissing? && pc.at == at
            else pc.Refused? && pc.at == at
  {
    hide Apply, Inv;
    assert Follows(w, run, i) && Follows(w, run, j);
    AlwaysInv(w, run, i);
    var s, op := run.states[i], run.states[i].tasks[t].op;
    var outcome := ServeOutcome(w, op, s.hist, token);
    ServeReplies(w, s, t, token);
    ReplyLasts(w, run, i + 1, j, t, op, outcome);
    AlwaysInv(w, run, j);
    ReconcileTells(w, run.states[j], t);
  }

  lemma ServeReplies(w: World, s: Store, t: nat, token: Token)
    requires Inv(w, s) && Enabled(w, s, ServeMutation(t, token))
    ensures s.hist != []
    ensures var op := s.tasks[t].op;
            Replied(Apply(w, s, ServeMutation(t, token)), t, op, ServeOutcome(w, op, s.hist, token))
  {
    hide Linked, FlightsOk, HandedOk, Lane, Sound, ServeOutcome;
  }

  lemma ReconcileTells(w: World, s: Store, t: nat)
    requires Inv(w, s) && Enabled(w, s, Reconcile(t))
    ensures var op, outcome := s.tasks[t].op, s.tasks[t].mpc.outcome;
            && AtMutation(Apply(w, s, Reconcile(t)), t)
            && var pc := Apply(w, s, Reconcile(t)).tasks[t].mpc;
               match outcome
               case Applied(at, _) => pc.Done? && pc.at == at
               case NotFound(at) => (if op.Delete? then pc.FoundMissing? && pc.at == at else pc.Refused? && pc.at == at)
               case Rejected(at) => pc.Refused? && pc.at == at
               case _ => pc.Failed?
  {
    hide FlightsOk, HandedOk, Lane, Sound, Clocked, InstallApplied, InstallAbsent, InvalidateExpected;
    assert TaskOk(w, s, s.tasks[t]);
  }

  lemma LossReplies(w: World, s: Store, e: Event, t: nat)
    requires Enabled(w, s, e) && (e == FailMutation(t) || e == LoseReply(t))
    ensures AtMutation(s, t)
    ensures Replied(Apply(w, s, e), t, s.tasks[t].op, if e.FailMutation? then Definite else InDoubt)
  {
    hide Linked;
  }

  /** A failed attempt or a lost reply is told as a failure. */
  lemma LostMutationsFail(w: World, run: Run, i: nat, j: nat, t: nat)
    requires ValidRun(w, run) && i < j < |run.events| && (run.events[i] == FailMutation(t) || run.events[i] == LoseReply(t))
    requires run.events[j] == Reconcile(t) && forall k :: i < k < j ==> !Disturbs(run.events[k], t)
    ensures AtMutation(run.states[j + 1], t) && run.states[j + 1].tasks[t].mpc.Failed?
  {
    hide Inv, Apply;
    assert Follows(w, run, i) && Follows(w, run, j);
    var op, outcome := run.states[i].tasks[t].op, if run.events[i].FailMutation? then Definite else InDoubt;
    LossReplies(w, run.states[i], run.events[i], t);
    ReplyLasts(w, run, i + 1, j, t, op, outcome);
    AlwaysInv(w, run, j);
    ReconcileTells(w, run.states[j], t);
  }

  // Everything told is on record --------------------------------------------------------------------

  ghost predicate OnRecord(s: Store, t: nat)
    requires t in s.tasks
  {
    match s.tasks[t]
    case Reader(_, _, Got(o)) => o in s.handed
    case Reader(_, _, Changed(o)) => o in s.handed
    case Mutator(_, Done(o, _, _)) => o in s.handed
    case Mutator(_, FoundMissing(o, _, _)) => o in s.handed
    case _ => true
  }

  lemma StaysOnRecord(w: World, s: Store, e: Event, t: nat)
    requires Enabled(w, s, e) && t in Apply(w, s, e).tasks && (t in s.tasks ==> OnRecord(s, t))
    ensures OnRecord(Apply(w, s, e), t)
  {
    hide Apply, Enabled;
    if TaskOf(e) != Some(t) {
      OthersStay(w, s, e, t);
      EventTime(w, s, e);
    } else if IsRead(e) {
      ReadOnRecord(w, s, e);
    } else {
      WriteOnRecord(w, s, e);
    }
  }

  lemma ReadOnRecord(w: World, s: Store, e: Event)
    requires IsRead(e) && Enabled(w, s, e) && e.t in Apply(w, s, e).tasks
    ensures OnRecord(Apply(w, s, e), e.t)
  {
    hide Apply, Enabled, OnRecord;
    if e.Publish? || e.StartCheck? || e.FinishCheck? || e.Recheck? {
      LongReadOnRecord(w, s, e);
    } else {
      ShortReadOnRecord(w, s, e);
    }
  }

  lemma LongReadOnRecord(w: World, s: Store, e: Event)
    requires (e.Publish? || e.StartCheck? || e.FinishCheck? || e.Recheck?) && Enabled(w, s, e)
    ensures e.t in Apply(w, s, e).tasks && OnRecord(Apply(w, s, e), e.t)
  {
    hide Peek, CacheKnowledge.Advance, InstallFetched, InstallAbsent, ConfirmUnchanged, OnRecord, SetTask;
    TasksAreRecorded();
  }

  /** Setting a task records what it was told. */
  lemma TasksAreRecorded()
    ensures forall s, t, task :: t in SetTask(s, t, task).tasks && OnRecord(SetTask(s, t, task), t)
  {
  }

  lemma ShortReadOnRecord(w: World, s: Store, e: Event)
    requires IsRead(e) && !e.Publish? && !e.StartCheck? && !e.FinishCheck? && !e.Recheck?
    requires Enabled(w, s, e) && e.t in Apply(w, s, e).tasks
    ensures OnRecord(Apply(w, s, e), e.t)
  {
    hide Linked, Peek, PresentSeed, ReadReply;
  }

  lemma WriteOnRecord(w: World, s: Store, e: Event)
    requires !IsRead(e) && TaskOf(e).Some? && Enabled(w, s, e) && e.t in Apply(w, s, e).tasks
    ensures OnRecord(Apply(w, s, e), e.t)
  {
    hide Linked, InstallApplied, InstallAbsent, CaptureExpected, InvalidateExpected, ServeOutcome;
  }

  /** Whatever a reader or a writer was told is among the observations handed out, which are genuine for good. */
  lemma {:induction false} EverythingToldIsHandedOut(w: World, run: Run, i: nat, t: nat)
    requires ValidRun(w, run) && i < |run.states| && t in run.states[i].tasks
    ensures OnRecord(run.states[i], t)
  {
    hide Apply, Enabled, OnRecord;
    if i == 0 {
      StartsEmpty(w, run, t);
    } else {
      assert Follows(w, run, i - 1);
      if t in run.states[i - 1].tasks {
        EverythingToldIsHandedOut(w, run, i - 1, t);
      }
      StaysOnRecord(w, run.states[i - 1], run.events[i - 1], t);
    }
  }

  // Reads: when the cache answers -----------------------------------------------------------------

  /** The watermark reaches the bound, if there is one. */
  predicate Reaches(s: Store, o: Observation, requirement: Option<nat>)
  {
    o.cell < |s.known.cells| && (requirement.None? || requirement.value <= s.known.cells[o.cell].mark)
  }

  predicate EntryAnswers(s: Store, requirement: Option<nat>)
  {
    s.known.entry.Some? && Reaches(s, s.known.entry.value, requirement)
  }

  /** A read is answered at once, with the entry, exactly if the entry's evidence reaches its bound. */
  lemma HitsExactly(w: World, s: Store, t: nat, req: Option<nat>)
    requires Enabled(w, s, StartRead(t, req))
    ensures var s' := Apply(w, s, StartRead(t, req));
            AtRead(s', t) &&
            s'.tasks[t].rpc == if EntryAnswers(s, req) then Got(s.known.entry.value) else Admitting
  {
  }

  /**
   A check is answered at once exactly if the observation's own evidence or the entry's
   reaches the bound; the entry then decides by its revision.
   */
  lemma ChecksHitExactly(w: World, s: Store, t: nat, req: Option<nat>, o: Observation)
    requires Enabled(w, s, StartCheck(t, req, o))
    ensures var s' := Apply(w, s, StartCheck(t, req, o));
            AtRead(s', t) &&
            s'.tasks[t].rpc ==
              if Reaches(s, o, req) then StillCurrent
              else if !EntryAnswers(s, req) then Admitting
              else if s.known.entry.value.revision == o.revision then StillCurrent
              else Changed(s.known.entry.value)
  {
    hide CacheKnowledge.Advance;
  }

  /** A reader joins the read in progress exactly if that one was invoked late enough. */
  lemma JoinsExactly(w: World, s: Store, t: nat)
    requires Enabled(w, s, Admit(t))
    ensures var s', req := Apply(w, s, Admit(t)), s.tasks[t].requirement;
            AtRead(s', t) &&
            s'.tasks[t].rpc ==
              if s.flight.Some? && (req.None? || req.value <= s.flights[s.flight.value].invoked) then Joined(s.flight.value)
              else ReadQueued
  {
  }

  /** In the lane, a reader asks the backend only if nothing known by then answers it. */
  lemma AsksExactly(w: World, s: Store, t: nat)
    requires Enabled(w, s, Recheck(t))
    ensures var s', task := Apply(w, s, Recheck(t)), s.tasks[t];
            AtRead(s', t) &&
            s'.tasks[t].rpc ==
              if task.fallback.Some? && Reaches(s, task.fallback.value, task.requirement) then Got(task.fallback.value)
              else if EntryAnswers(s, task.requirement) then Got(s.known.entry.value)
              else Seeding
  {
  }

  /** It asks by revision if it knows a present state: the entry's, or else the one it checks. */
  lemma SeedsExactly(w: World, s: Store, t: nat)
    requires Enabled(w, s, TakeSeed(t))
    ensures var s', task := Apply(w, s, TakeSeed(t)), s.tasks[t];
            AtRead(s', t) &&
            s'.tasks[t].rpc ==
              Seeded(KnownPresent(s, task.fallback))
  {
  }

  /** The body is sent exactly if the state is present under another revision than asked about. */
  lemma BodiesExactly(w: World, s: Store, t: nat)
    requires Enabled(w, s, ServeRead(t))
    ensures var s', pc := Apply(w, s, ServeRead(t)), s.tasks[t].rpc;
            && AtRead(s', t) && s'.tasks[t].rpc.ReadReplied? && s.hist != []
            && var now := s.hist[|s.hist| - 1];
               s'.tasks[t].rpc.reply ==
                 if now.Absent? then Missing
                 else if pc.seed.Some? && pc.seed.value.revision == Some(now.token) then NotModified
                 else Body(now.bytes, now.token)
  {
  }

  /** A present state the reader knows: the cached one, or else the one it checks. */
  function KnownPresent(s: Store, fallback: Option<Observation>): Option<Observation>
  {
    if s.known.entry.Some? && s.known.entry.value.revision.Some? then s.known.entry
    else if fallback.Some? && fallback.value.revision.Some? then fallback
    else None
  }

  ghost predicate AsksWith(s: Store, t: nat, seed: Option<Observation>)
  {
    AtRead(s, t) && (s.tasks[t].rpc.Seeded? || s.tasks[t].rpc.Reading?) && s.tasks[t].rpc.seed == seed
  }

  lemma SeedStays(w: World, s: Store, e: Event, t: nat, seed: Option<Observation>)
    requires Enabled(w, s, e) && AsksWith(s, t, seed) && e != CancelRead(t) && e != ServeRead(t) && e != FailRead(t)
    ensures AsksWith(Apply(w, s, e), t, seed)
  {
    hide Apply;
    if TaskOf(e) == Some(t) {
      assert e.Dispatch?;
      DispatchAsks(w, s, t, e.point);
    } else {
      OthersStay(w, s, e, t);
    }
  }

  lemma DispatchAsks(w: World, s: Store, t: nat, point: nat)
    requires Enabled(w, s, Dispatch(t, point))
    ensures AsksWith(Apply(w, s, Dispatch(t, point)), t, s.tasks[t].rpc.seed)
  {
  }

  lemma {:induction false} SeedLasts(w: World, run: Run, i: nat, j: nat, t: nat, seed: Option<Observation>)
    requires ValidRun(w, run) && i <= j < |run.states| && AsksWith(run.states[i], t, seed)
    requires forall k :: i <= k < j ==>
               run.events[k] != CancelRead(t) && run.events[k] != ServeRead(t) && run.events[k] != FailRead(t)
    ensures AsksWith(run.states[j], t, seed)
    decreases j - i
  {
    hide Apply, Enabled, AsksWith;
    if i < j {
      SeedLasts(w, run, i, j - 1, t, seed);
      assert Follows(w, run, j - 1);
      SeedStays(w, run.states[j - 1], run.events[j - 1], t, seed);
    }
  }

  /**
   A body is not sent again exactly if the reader knew a present state when it prepared its
   request and that revision is current when the backend answers.
   */
  lemma KnownBodiesAreNotSent(w: World, run: Run, i: nat, j: nat, t: nat)
    requires ValidRun(w, run) && i < j < |run.events| && run.events[i] == TakeSeed(t) && run.events[j] == ServeRead(t)
    requires forall k :: i < k < j ==>
               run.events[k] != CancelRead(t) && run.events[k] != ServeRead(t) && run.events[k] != FailRead(t)
    ensures AtRead(run.states[i], t) && run.states[j].hist != []
    ensures AtRead(run.states[j + 1], t) && run.states[j + 1].tasks[t].rpc.ReadReplied?
    ensures var known, now := KnownPresent(run.states[i], run.states[i].tasks[t].fallback), Current(run.states[j].hist);
            var reply := run.states[j + 1].tasks[t].rpc.reply;
            if now.Absent? then reply == Missing
            else if known.Some? && known.value.revision == Some(now.token) then reply == NotModified
            else reply == Body(now.bytes, now.token)
  {
    hide Apply;
    assert Follows(w, run, i) && Follows(w, run, j);
    SeedsExactly(w, run.states[i], t);
    SeedLasts(w, run, i + 1, j, t, KnownPresent(run.states[i], run.states[i].tasks[t].fallback));
    BodiesExactly(w, run.states[j], t);
  }

  // Reads: what the backend's answer is told as ------------------------------------------------------

  ghost predicate ReadBy(s: Store, t: nat, at: nat, f: nat)
  {
    AtRead(s, t) && s.tasks[t].rpc.ReadReplied? && s.tasks[t].rpc.at == at && s.tasks[t].rpc.flight == f
  }

  lemma {:induction false} ReadLasts(w: World, run: Run, i: nat, j: nat, t: nat, at: nat, f: nat)
    requires ValidRun(w, run) && i <= j < |run.states| && ReadBy(run.states[i], t, at, f)
    requires forall k :: i <= k < j ==> run.events[k] != CancelRead(t) && run.events[k] != Publish(t)
    ensures ReadBy(run.states[j], t, at, f)
    decreases j - i
  {
    hide Apply;
    if i < j {
      ReadLasts(w, run, i, j - 1, t, at, f);
      assert Follows(w, run, j - 1);
      assert TaskOf(run.events[j - 1]) != Some(t);
      OthersStay(w, run.states[j - 1], run.events[j - 1], t);
    }
  }

  ghost predicate Readable(w: World, state: State)
  {
    state.Absent? || w.decode(state.bytes).Some?
  }

  /** What a finished read was told: an observation of the state, or that it could not be read. */
  ghost predicate ToldOf(w: World, state: State, pc: ReadPc)
  {
    if Readable(w, state) then pc.Got? && Shows(w, state, pc.observed) else pc == ReadFailed
  }

  lemma PublishTells(w: World, s: Store, t: nat)
    requires Inv(w, s) && Enabled(w, s, Publish(t))
    ensures var s', pc := Apply(w, s, Publish(t)), s.tasks[t].rpc;
            && AtRead(s', t) && pc.at < |s.hist| && pc.flight < |s'.flights|
            && ToldOf(w, s.hist[pc.at], s'.tasks[t].rpc)
            && s'.flights[pc.flight].outcome ==
                 Some(if s'.tasks[t].rpc.Got? then Success(s'.tasks[t].rpc.observed) else Error)
  {
    hide HandedOk, Lane, FlightsOk, Sound, Clocked, InstallFetched, InstallAbsent, ConfirmUnchanged, Past;
    var task := s.tasks[t];
    assert TaskOk(w, s, task);
    match task.rpc.reply
    case Body(b, token) =>
    case NotModified => assert Faithful(w, s.known.cells, task.rpc.seed.value);
    case Missing =>
  }

  /** A reader whose answer arrives is told of the state the backend had when it answered. */
  lemma ServedReadsAreToldSo(w: World, run: Run, i: nat, j: nat, t: nat)
    requires ValidRun(w, run) && i < j < |run.events| && run.events[i] == ServeRead(t) && run.events[j] == Publish(t)
    requires forall k :: i < k < j ==> run.events[k] != CancelRead(t) && run.events[k] != Publish(t)
    ensures run.states[i].hist != [] && AtRead(run.states[j + 1], t)
    ensures var hist := run.states[i].hist;
            ToldOf(w, hist[|hist| - 1], run.states[j + 1].tasks[t].rpc)
  {
    hide Apply, Inv, ToldOf;
    assert Follows(w, run, i) && Follows(w, run, j);
    var s := run.states[i];
    ServedNow(w, s, t);
    ReadLasts(w, run, i + 1, j, t, |s.hist| - 1, s.tasks[t].rpc.flight);
    AlwaysInv(w, run, j);
    AlwaysGrows(w, run, i, j);
    PublishTells(w, run.states[j], t);
  }

  lemma ServedNow(w: World, s: Store, t: nat)
    requires Enabled(w, s, ServeRead(t))
    ensures s.hist != [] && ReadBy(Apply(w, s, ServeRead(t)), t, |s.hist| - 1, s.tasks[t].rpc.flight)
  {
    hide ReadReply;
  }

  // Readers that joined --------------------------------------------------------------------------------

  /** A settled flight is never settled again. */
  lemma SettledStays(w: World, s: Store, e: Event, f: nat)
    requires Inv(w, s) && Enabled(w, s, e) && Settled(s.flights, f)
    ensures Settled(Apply(w, s, e).flights, f) && Apply(w, s, e).flights[f] == s.flights[f]
  {
    hide Apply, Enabled, Inv;
    if e.Publish? || e.FailRead? || e.CancelRead? {
      EndingSettles(w, s, e, f);
    } else {
      OthersSettleNothing(w, s, e, f);
    }
  }

  lemma EndingSettles(w: World, s: Store, e: Event, f: nat)
    requires Inv(w, s) && Enabled(w, s, e) && Settled(s.flights, f) && (e.Publish? || e.FailRead? || e.CancelRead?)
    ensures Settled(Apply(w, s, e).flights, f) && Apply(w, s, e).flights[f] == s.flights[f]
  {
    hide HandedOk, Sound, Clocked, TasksOk, FlightsOk, Published, Linked;
    if e.Publish? {
      PublishSettles(w, s, e.t, f);
    }
  }

  lemma PublishSettles(w: World, s: Store, t: nat, f: nat)
    requires Inv(w, s) && Enabled(w, s, Publish(t)) && Settled(s.flights, f)
    ensures Settled(Published(w, s, t).flights, f) && Published(w, s, t).flights[f] == s.flights[f]
  {
    hide HandedOk, Sound, Clocked, TasksOk, FlightsOk, InstallFetched, InstallAbsent, ConfirmUnchanged;
  }

  lemma OthersSettleNothing(w: World, s: Store, e: Event, f: nat)
    requires Enabled(w, s, e) && Settled(s.flights, f) && !e.Publish? && !e.FailRead? && !e.CancelRead?
    ensures Settled(Apply(w, s, e).flights, f) && Apply(w, s, e).flights[f] == s.flights[f]
  {
    hide Linked, InstallApplied, InstallAbsent, CaptureExpected, InvalidateExpected, ServeOutcome, Peek, PresentSeed,
      ReadReply, CacheKnowledge.Advance;
  }

  lemma {:induction false} SettledForGood(w: World, run: Run, i: nat, j: nat, f: nat)
    requires ValidRun(w, run) && i <= j < |run.states| && Settled(run.states[i].flights, f)
    ensures Settled(run.states[j].flights, f) && run.states[j].flights[f] == run.states[i].flights[f]
    decreases j - i
  {
    hide Apply, Enabled, Inv;
    if i < j {
      SettledForGood(w, run, i, j - 1, f);
      AlwaysInv(w, run, j - 1);
      assert Follows(w, run, j - 1);
      SettledStays(w, run.states[j - 1], run.events[j - 1], f);
    }
  }

  /** Whoever joined a read is told what its leader was told. */
  lemma FollowersAreToldTheSame(w: World, run: Run, i: nat, j: nat, leader: nat, t: nat)
    requires ValidRun(w, run) && i < j < |run.events| && run.events[i] == Publish(leader) && run.events[j] == Wake(t)
    requires AtRead(run.states[i], leader) && run.states[i].tasks[leader].rpc.ReadReplied?
    requires AtRead(run.states[j], t) && run.states[j].tasks[t].rpc == Joined(run.states[i].tasks[leader].rpc.flight)
    ensures AtRead(run.states[i + 1], leader) && AtRead(run.states[j + 1], t)
    ensures run.states[j + 1].tasks[t].rpc == run.states[i + 1].tasks[leader].rpc
  {
    hide Inv, Published;
    assert Follows(w, run, i) && Follows(w, run, j);
    AlwaysInv(w, run, i);
    PublishTells(w, run.states[i], leader);
    SettledForGood(w, run, i + 1, j, run.states[i].tasks[leader].rpc.flight);
  }

  /** A reader whose leader was dropped asks again; one whose leader failed has failed. */
  lemma LostLeadersAreReplaced(w: World, run: Run, i: nat, j: nat, leader: nat, t: nat)
    requires ValidRun(w, run) && i < j < |run.events| && run.events[j] == Wake(t)
    requires run.events[i] == CancelRead(leader) || run.events[i] == FailRead(leader)
    requires AtRead(run.states[i], leader) && LeadsFlight(run.states[i].tasks[leader]).Some?
    requires AtRead(run.states[j], t)
    requires run.states[j].tasks[t].rpc == Joined(LeadsFlight(run.states[i].tasks[leader]).value)
    ensures AtRead(run.states[j + 1], t)
    ensures run.states[j + 1].tasks[t].rpc == if run.events[i].CancelRead? then Admitting else ReadFailed
  {
    hide Inv;
    assert Follows(w, run, i) && Follows(w, run, j);
    SettledForGood(w, run, i + 1, j, LeadsFlight(run.states[i].tasks[leader]).value);
  }

  // What the rounds leave in the cache -------------------------------------------------------------------

  /** The entry shows what the observation shows, with the same evidence. */
  predicate Entered(k: Known, o: Observation)
  {
    k.entry.Some? && k.entry.value.revision == o.revision && k.entry.value.cell == o.cell
  }

  lemma FetchedEntered(k: Known, token: Token, v: Value, cell: Cell)
    requires EntryOk(k)
    ensures var i := InstallFetched(k, token, v, cell);
            Entered(i.known, Observation(Some(token), Some(v), i.cell))
  {
    hide CacheKnowledge.Advance;
  }

  lemma AbsentEntered(k: Known, mark: nat, proof: nat)
    requires EntryOk(k)
    ensures var i := InstallAbsent(k, mark, proof);
            Entered(i.known, Observation(None, None, i.cell))
  {
    hide CacheKnowledge.Advance;
  }

  lemma UnchangedEntered(k: Known, seed: Observation, mark: nat, proof: nat)
    requires EntryOk(k) && seed.cell < |k.cells|
    ensures var i := ConfirmUnchanged(k, seed, mark, proof);
            Entered(i.known, seed.(cell := i.cell))
  {
  }

  /** What a read fetched is cached; what could not be read leaves nothing cached. */
  lemma ReadsAreCached(w: World, s: Store, t: nat)
    requires Enabled(w, s, Publish(t))
    ensures var s' := Apply(w, s, Publish(t));
            AtRead(s', t) && if s'.tasks[t].rpc.Got? then Entered(s'.known, s'.tasks[t].rpc.observed) else s'.known.entry == None
  {
    hide InstallFetched, InstallAbsent, ConfirmUnchanged, Entered;
    var pc, invoked := s.tasks[t].rpc, s.flights[s.tasks[t].rpc.flight].invoked;
    match pc.reply
    case Body(b, token) =>
      if w.decode(b).Some? {
        FetchedEntered(s.known, token, w.decode(b).value, Cell(Present(b, token), invoked, pc.at));
      }
    case NotModified => UnchangedEntered(s.known, pc.seed.value, invoked, pc.at);
    case Missing => AbsentEntered(s.known, invoked, pc.at);
  }

  /** What a mutation installed or found missing is cached. */
  lemma WritesAreCached(w: World, s: Store, t: nat)
    requires Inv(w, s) && Enabled(w, s, Reconcile(t))
    ensures var s' := Apply(w, s, Reconcile(t));
            && AtMutation(s', t)
            && (s'.tasks[t].mpc.Done? || s'.tasks[t].mpc.FoundMissing? ==> Entered(s'.known, s'.tasks[t].mpc.observed))
            && (s.tasks[t].mpc.outcome.NotFound? ==> s'.known.entry.Some? && s'.known.entry.value.revision == None)
  {
    hide HandedOk, Lane, FlightsOk, Sound, Clocked, InstallFetched, InstallAbsent, InvalidateExpected, AdvanceExpected;
    var task := s.tasks[t];
    assert TaskOk(w, s, task);
    var op, pc := task.op, task.mpc;
    match pc.outcome
    case Applied(at, Absent) => AbsentEntered(s.known, pc.point, at + 1);
    case Applied(at, Present(b, token)) =>
      FetchedEntered(s.known, token, op.value, Cell(Present(b, token), pc.point, at + 1));
    case NotFound(at) => AbsentEntered(s.known, pc.point, at);
    case _ =>
  }

  /** The backend takes a mutation exactly if the expected revision is current, and then writes its result. */
  lemma BackendAppliesExactly(w: World, s: Store, t: nat, token: Token)
    requires Enabled(w, s, ServeMutation(t, token))
    ensures s.hist != []
    ensures var op, s' := s.tasks[t].op, Apply(w, s, ServeMutation(t, token));
            if Revision(s.hist[|s.hist| - 1]) == ExpectedRevision(op) then
              && |s'.hist| == |s.hist| + 1 && s.hist <= s'.hist && ResultOf(w, op, s'.hist[|s.hist|])
              && (!op.Delete? ==> s'.hist[|s.hist|].token == token)
            else s'.hist == s.hist
  {
  }

  /** A refusal by revision drops the entry exactly if it is the state that was expected. */
  lemma RefusalsDropExactly(w: World, s: Store, t: nat)
    requires Enabled(w, s, Reconcile(t)) && s.tasks[t].mpc.outcome.Rejected?
    ensures var k := Apply(w, s, Reconcile(t)).known;
            && k.cells == s.known.cells
            && k.entry == if s.known.entry.Some? && s.known.entry.value.revision == ExpectedRevision(s.tasks[t].op)
                          then None else s.known.entry
  {
  }

  /** A definite failure leaves the cache alone; a lost reply empties it, and so does cancelling in the lane. */
  lemma DoubtDropsExactly(w: World, s: Store, t: nat)
    ensures Enabled(w, s, Reconcile(t)) && s.tasks[t].mpc.outcome.Definite? ==>
              Apply(w, s, Reconcile(t)).known == s.known
    ensures Enabled(w, s, Reconcile(t)) && s.tasks[t].mpc.outcome.InDoubt? ==>
              Apply(w, s, Reconcile(t)).known == Known(None, s.known.cells)
    ensures Enabled(w, s, CancelMutation(t)) ==>
              Apply(w, s, CancelMutation(t)).known ==
                if HoldsGate(s.tasks[t]) then Known(None, s.known.cells) else s.known
  {
  }
}
