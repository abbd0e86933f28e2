/**
 What is stored for a key while work for it exists, with one function per locked move. A move
 that leaves nothing to store gives no machine back, and the key is then without one.
 */
module DedupMachine {
  import opened Sequences
  import opened DedupQueue

  datatype DriverKind = Inline | Owner
  datatype Driver = Driver(id: nat, kind: DriverKind)

  datatype Phase =
    | Ready(driver: Driver)
    | Running(driver: Driver, signal: nat)
    | Completing(driver: Driver)
    | Handoff(reserved: nat)

  datatype Machine<R> = Machine(queue: Queue<R>, phase: Phase)

  /** What the worker future came to: a result, no live caller left, or shutdown. */
  datatype Outcome = Done(result: nat) | Liveness | Shutdown

  /** What the shard does with the key's entry once the transition is committed. */
  datatype Action = Keep | Remove | SpawnOwner(owner: nat)

  /** The value a transition hands back to its caller. */
  datatype Reply<R> =
    | Nothing
    | Started(signal: nat)
    | Request(merged: R)
    | Aborted(signal: nat)
    | Finished
    | Again
    | Accepted
    | Panicked

  datatype Step<R> = Step(
    machine: Machine<R>,
    action: Action,
    reply: Reply<R>,
    discarded: seq<Member<R>>,
    delivery: seq<Member<R>>)

  function Unchanged<R>(m: Machine<R>): Step<R>
  {
    Step(m, Keep, Nothing, [], [])
  }

  function NewMachine<R>(seed: Member<R>, driver: nat): Machine<R>
  {
    Machine(NewQueue(seed), Ready(Driver(driver, Inline)))
  }

  function Submit<R>(p: Policy<R>, m: Machine<R>, member: Member<R>): Machine<R>
  {
    m.(queue := Enqueue(p, m.queue, member))
  }

  function StartRound<R>(
    p: Policy<R>, m: Machine<R>, id: nat, closing: bool, signal: nat, dead: set<nat>, later: set<nat>): Step<R>
  {
    if !(m.phase.Ready? && m.phase.driver.id == id) then Unchanged(m)
    else if closing then Step(m, Remove, Nothing, [], [])
    else
      var discarded := FormDiscards(m.queue, dead, later);
      match FormBatch(p, m.queue, dead, later)
      case EmptyBatch(q) => Step(m.(queue := q), Remove, Nothing, discarded, [])
      case Merged(q) => Step(Machine(q, Running(m.phase.driver, signal)), Keep, Started(signal), discarded, [])
      case Panic(q) => Step(m.(queue := q), Keep, Panicked, discarded, [])
  }

  function Refresh<R>(p: Policy<R>, m: Machine<R>, id: nat, dead: set<nat>): Step<R>
  {
    if !(m.phase.Running? && m.phase.driver.id == id) then Unchanged(m)
    else
      var discarded := Pruned(m.queue, dead);
      match RefreshBatch(p, m.queue, dead)
      case EmptyBatch(q) => Step(m.(queue := q), Keep, Aborted(m.phase.signal), discarded, [])
      case Merged(q) =>
        var reply := match q.merged case Some(r) => Request(r) case None => Nothing;
        Step(m.(queue := q), Keep, reply, discarded, [])
      case Panic(q) => Step(m.(queue := q), Keep, Panicked, discarded, [])
  }

  function RoundFinished<R>(m: Machine<R>, id: nat, outcome: Outcome): Step<R>
  {
    if !(m.phase.Running? && m.phase.driver.id == id) then Unchanged(m)
    else
      var q := m.queue.(batch := []);
      match outcome
      case Done(_) => Step(Machine(q, Completing(m.phase.driver)), Keep, Finished, [], m.queue.batch)
      case Liveness => Step(Machine(q, Completing(m.phase.driver)), Keep, Finished, m.queue.batch, [])
      case Shutdown => Step(m, Remove, Nothing, [], [])
  }

  predicate HasIncoming<R>(q: Queue<R>)
  {
    q.reorderable != [] || q.fifo != []
  }

  function FinalizeCompletion<R>(m: Machine<R>, id: nat, successor: nat, dead: set<nat>): Step<R>
  {
    if !(m.phase.Completing? && m.phase.driver.id == id) then Unchanged(m)
    else
      var q := Prune(m.queue, dead);
      var discarded := Pruned(m.queue, dead);
      if !HasIncoming(q) then Step(m.(queue := q), Remove, Nothing, discarded, [])
      else if m.phase.driver.kind.Inline? then
        Step(Machine(q, Handoff(successor)), SpawnOwner(successor), Nothing, discarded, [])
      else Step(Machine(q, Ready(m.phase.driver)), Keep, Again, discarded, [])
  }

  predicate Drives(phase: Phase, id: nat)
  {
    !phase.Handoff? && phase.driver.id == id
  }

  function DriverDropped<R>(
    p: Policy<R>, m: Machine<R>, id: nat, closing: bool, successor: nat, dead: set<nat>, later: set<nat>): Step<R>
  {
    if !Drives(m.phase, id) then Unchanged(m)
    else
      var reply := if m.phase.Running? then Aborted(m.phase.signal) else Nothing;
      var requeued := Requeue(p, m.queue, dead);
      var dropped := Gone(m.queue.batch, dead);
      if closing then Step(m.(queue := requeued), Remove, reply, dropped, [])
      else
        var q := Prune(requeued, later);
        var discarded := dropped + Pruned(requeued, later);
        if HasIncoming(q) then Step(Machine(q, Handoff(successor)), SpawnOwner(successor), reply, discarded, [])
        else Step(m.(queue := q), Remove, reply, discarded, [])
  }

  function OwnerStarted<R>(m: Machine<R>, id: nat): Step<R>
  {
    if !(m.phase.Handoff? && m.phase.reserved == id) then Unchanged(m)
    else Step(m.(phase := Ready(Driver(id, Owner))), Keep, Accepted, [], [])
  }

  function Close<R>(m: Machine<R>): Step<R>
  {
    Step(m, Remove, if m.phase.Running? then Aborted(m.phase.signal) else Nothing, [], [])
  }

  /** The one party the phase names: its driver, or the owner it is reserved for. */
  function Entitled(phase: Phase): nat
  {
    if phase.Handoff? then phase.reserved else phase.driver.id
  }

  /** A call under any other driver id leaves the machine as it is and reports nothing. */
  lemma StrangersChangeNothing<R(!new)>(
    p: Policy<R>, m: Machine<R>, id: nat, closing: bool, next: nat, dead: set<nat>, later: set<nat>, outcome: Outcome)
    requires Entitled(m.phase) != id
    ensures StartRound(p, m, id, closing, next, dead, later) == Unchanged(m)
    ensures Refresh(p, m, id, dead) == Unchanged(m)
    ensures RoundFinished(m, id, outcome) == Unchanged(m)
    ensures FinalizeCompletion(m, id, next, dead) == Unchanged(m)
    ensures DriverDropped(p, m, id, closing, next, dead, later) == Unchanged(m)
    ensures OwnerStarted(m, id) == Unchanged(m)
  {
  }

  // What each transition does to the phase -----------------------------------------------

  lemma StartShape<R(!new)>(
    p: Policy<R>, m: Machine<R>, id: nat, closing: bool, signal: nat, dead: set<nat>, later: set<nat>)
    requires m.phase.Ready? && m.phase.driver.id == id
    ensures var s := StartRound(p, m, id, closing, signal, dead, later);
            && s.delivery == []
            && match s.reply
               case Started(x) => !closing && x == signal && s.action == Keep && s.machine.phase == Running(m.phase.driver, signal)
               case Panicked => s.action == Keep
               case Nothing => s.action == Remove
               case _ => false
  {
  }

  lemma RefreshShape<R(!new)>(p: Policy<R>, m: Machine<R>, id: nat, dead: set<nat>)
    ensures var s := Refresh(p, m, id, dead);
            && s.delivery == [] && s.action == Keep && s.machine.phase == m.phase
            && !s.reply.Started? && !s.reply.Finished? && !s.reply.Again? && !s.reply.Accepted?
            && (s.reply.Aborted? ==> m.phase.Running? && s.reply.signal == m.phase.signal)
  {
  }

  lemma FinalizeShape<R(!new)>(m: Machine<R>, id: nat, successor: nat, dead: set<nat>)
    requires m.phase.Completing? && m.phase.driver.id == id
    ensures var s := FinalizeCompletion(m, id, successor, dead);
            && s.delivery == []
            && (s.reply == Nothing || s.reply == Again)
            && match s.action
               case Keep => s.reply == Again && m.phase.driver.kind == Owner && s.machine.phase == Ready(m.phase.driver)
               case Remove => s.reply == Nothing
               case SpawnOwner(o) => s.reply == Nothing && o == successor && s.machine.phase == Handoff(successor)
  {
  }

  lemma DropShape<R(!new)>(
    p: Policy<R>, m: Machine<R>, id: nat, closing: bool, successor: nat, dead: set<nat>, later: set<nat>)
    ensures var s := DriverDropped(p, m, id, closing, successor, dead, later);
            && s.delivery == []
            && (s.reply == Nothing || s.reply.Aborted?)
            && if !Drives(m.phase, id) then s == Unchanged(m)
               else if s.action.SpawnOwner? then !closing && s.action.owner == successor && s.machine.phase == Handoff(successor)
               else s.action == Remove
  {
  }

  // What a starting round can lose ------------------------------------------------------

  /** The batch formed at the first look has wholly died by the second, while others wait. */
  ghost predicate TornSeed<R(!new)>(q: Queue<R>, dead: set<nat>, later: set<nat>)
  {
    var s := Seed(Prune(q, dead));
    && s.batch != []
    && (forall i :: 0 <= i < |s.batch| ==> s.batch[i].id in later)
    && (exists m :: (m in s.reorderable || m in s.fifo) && m.id !in later)
  }

  /** The transition removes the key although a caller that still waits is queued on it. */
  ghost predicate LosesLive<R(!new)>(s: Step<R>, later: set<nat>)
  {
    s.action.Remove? && exists m :: m in Members(s.machine.queue) && m.id !in later
  }

  lemma LiveEmpty<R(!new)>(ms: seq<Member<R>>, dead: set<nat>)
    ensures Live(ms, dead) == [] <==> forall i :: 0 <= i < |ms| ==> ms[i].id in dead
  {
    LiveMembers(ms, dead);
    if Live(ms, dead) == [] {
      forall i | 0 <= i < |ms| ensures ms[i].id in dead {
        assert ms[i] in ms;
      }
    } else {
      var m := Live(ms, dead)[0];
      assert m in Live(ms, dead);
    }
  }

  lemma StartRemovesWhenEmpty<R(!new)>(
    p: Policy<R>, m: Machine<R>, id: nat, signal: nat, dead: set<nat>, later: set<nat>)
    requires m.phase.Ready? && m.phase.driver.id == id
    ensures var seeded, s := Seed(Prune(m.queue, dead)), StartRound(p, m, id, false, signal, dead, later);
            && (s.action.Remove? <==> Live(seeded.batch, later) == [])
            && (s.action.Remove? ==> s.machine.queue == Prune(seeded, later))
  {
    hide Seed, Live, Fold, ScanReorderable, ScanFifo, FormDiscards;
  }

  lemma EmptySeed<R(!new)>(q: Queue<R>)
    requires Seed(q).batch == []
    ensures Seed(q).reorderable == [] && Seed(q).fifo == []
  {
  }

  /**
   A round that is not starting under shutdown drops callers that still wait exactly when
   its freshly formed batch died between the two looks at liveness.
   */
  lemma StartLosesLiveOnlyWhenTorn<R(!new)>(
    p: Policy<R>, m: Machine<R>, id: nat, signal: nat, dead: set<nat>, later: set<nat>)
    requires m.phase.Ready? && m.phase.driver.id == id
    ensures LosesLive(StartRound(p, m, id, false, signal, dead, later), later) <==> TornSeed(m.queue, dead, later)
  {
    hide StartRound, Seed, Prune, Members, Live;
    var s := Seed(Prune(m.queue, dead));
    StartRemovesWhenEmpty(p, m, id, signal, dead, later);
    LiveEmpty(s.batch, later);
    if Live(s.batch, later) == [] {
      WaitersLeft(s, later);
      if s.batch == [] {
        EmptySeed(Prune(m.queue, dead));
      }
    }
  }

  lemma WaitersLeft<R(!new)>(s: Queue<R>, later: set<nat>)
    requires Live(s.batch, later) == []
    ensures forall x :: x in Members(Prune(s, later)) <==> (x in s.reorderable || x in s.fifo) && x.id !in later
  {
    var q := Prune(s, later);
    LiveMembers(s.reorderable, later);
    LiveMembers(s.fifo, later);
    forall x ensures x in Members(q) <==> (x in s.reorderable || x in s.fifo) && x.id !in later {
      assert x in Members(q) <==> x in q.reorderable || x in q.fifo;
    }
  }

  /** When liveness holds still during the transition, a starting round loses nobody. */
  lemma StartLosesNobody<R(!new)>(p: Policy<R>, m: Machine<R>, id: nat, signal: nat, dead: set<nat>)
    requires m.phase.Ready? && m.phase.driver.id == id
    ensures var s := StartRound(p, m, id, false, signal, dead, dead);
            s.action.Remove? ==> Members(s.machine.queue) == multiset{}
  {
    var q := Prune(m.queue, dead);
    LiveEmpty(Seed(q).batch, dead);
    LiveMembers(m.queue.batch, dead);
    LiveMembers(m.queue.reorderable, dead);
    LiveMembers(m.queue.fifo, dead);
    if Seed(q).batch != [] {
      assert Seed(q).batch[0] in q.batch + q.fifo + q.reorderable;
    }
  }
}
