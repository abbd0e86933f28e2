/**
 The retry policy of one conditional write against S3: an If-Match or If-None-Match request
 (sections 13.1.1 and 13.1.2 of RFC 9110) is re-sent until its outcome is known, is in
 doubt, or the attempts run out.
 */
module ConditionalPut {
  import opened Sequences

  const MAX_CONFLICT_RETRIES: nat := 5
  const MAX_ATTEMPTS: nat := 10

  datatype Fact = PreconditionFailed | Conflict | Throttle | MaybeApplied | Missing | OtherFailure

  /** What one attempt came to. */
  datatype Event = Applied(revision: string) | AppliedWithoutRevision | Failed(fact: Fact)

  datatype Action = Return(revision: string) | Retry(millis: nat) | Rejected | Doubt | Terminal(fact: Fact)

  datatype State = State(attempts: nat, mayHaveApplied: bool)

  /** What the caller of the write is told. */
  datatype Result = Revision(revision: string) | Precondition | InDoubt | NotFound | Other

  function Power2(n: nat): nat
  {
    if n == 0 then 1 else 2 * Power2(n - 1)
  }

  function Backoff(attempt: nat): nat
  {
    if 25 * Power2(attempt) < 1000 then 25 * Power2(attempt) else 1000
  }

  function Decide(s: State, event: Event): Action
  {
    match event
    case Applied(revision) => Return(revision)
    case AppliedWithoutRevision => Doubt
    case Failed(fact) =>
      if fact.PreconditionFailed? then (if s.mayHaveApplied then Doubt else Rejected)
      else if fact.Conflict? && s.attempts < MAX_CONFLICT_RETRIES then Retry(Backoff(s.attempts))
      else if (fact.MaybeApplied? || fact.Throttle?) && s.attempts < MAX_ATTEMPTS then Retry(Backoff(s.attempts))
      else if s.mayHaveApplied then Doubt
      else if fact.Conflict? then Rejected
      else Terminal(fact)
  }

  function Advance(s: State, event: Event): State
  {
    var taints := event.Failed? && event.fact.MaybeApplied? && s.attempts < MAX_ATTEMPTS;
    State(s.attempts + 1, s.mayHaveApplied || taints)
  }

  function Annotate(fact: Fact): Result
  {
    match fact
    case PreconditionFailed => Precondition
    case Conflict => Precondition
    case Missing => NotFound
    case _ => Other
  }

  function Settle(action: Action): Result
    requires !action.Retry?
  {
    match action
    case Return(revision) => Revision(revision)
    case Rejected => Precondition
    case Doubt => InDoubt
    case Terminal(fact) => Annotate(fact)
  }

  /** A finished write: what it reports, the attempts it made and the time it waited. */
  datatype Outcome = Outcome(result: Result, attempts: nat, waited: nat)

  /** The write from some state on, given what each further attempt would come to. */
  function Run(s: State, events: seq<Event>): Option<Outcome>
    decreases |events|
  {
    if events == [] then None
    else
      var action := Decide(s, events[0]);
      if !action.Retry? then Some(Outcome(Settle(action), 1, 0))
      else
        match Run(Advance(s, events[0]), events[1..])
        case None => None
        case Some(o) => Some(Outcome(o.result, o.attempts + 1, o.waited + action.millis))
  }

  /** One attempt of the write, and the rest of it. */
  lemma {:induction false} RunStep(s: State, events: seq<Event>)
    requires events != [] && s.attempts <= MAX_ATTEMPTS
    ensures var action := Decide(s, events[0]);
            var next := Advance(s, events[0]);
            && next.attempts == s.attempts + 1 && (action.Retry? ==> next.attempts <= MAX_ATTEMPTS)
            && Run(s, events) ==
               if !action.Retry? then Some(Outcome(Settle(action), 1, 0))
               else match Run(next, events[1..])
                    case None => None
                    case Some(o) => Some(Outcome(o.result, o.attempts + 1, o.waited + action.millis))
  {
    hide Settle, Backoff;
  }

  const FRESH: State := State(0, false)

  /** The policy's state, as the write loop keeps it. */
  class ConditionalPutState {
    var attempts: nat
    var mayHaveApplied: bool

    ghost function View(): State
      reads this
    {
      State(attempts, mayHaveApplied)
    }

    constructor ()
      ensures View() == FRESH
    {
      attempts, mayHaveApplied := 0, false;
    }

    method Transition(event: Event) returns (action: Action)
      modifies this
      ensures action == Decide(old(View()), event) && View() == Advance(old(View()), event)
    {
      var attempt := attempts;
      attempts := attempts + 1;
      match event {
        case Applied(revision) => return Return(revision);
        case AppliedWithoutRevision => return Doubt;
        case Failed(fact) =>
          if fact.PreconditionFailed? {
            return if mayHaveApplied then Doubt else Rejected;
          }
          if fact.Conflict? && attempt < MAX_CONFLICT_RETRIES {
            return Retry(Backoff(attempt));
          }
          if fact.MaybeApplied? && attempt < MAX_ATTEMPTS {
            mayHaveApplied := true;
            return Retry(Backoff(attempt));
          }
          if fact.Throttle? && attempt < MAX_ATTEMPTS {
            return Retry(Backoff(attempt));
          }
          if mayHaveApplied {
            return Doubt;
          }
          return if fact.Conflict? then Rejected else Terminal(fact);
      }
    }
  }

  /** The write: an empty If-Match token can match nothing and is refused without a request. */
  method Put(ifMatch: Option<string>, events: seq<Event>) returns (o: Outcome)
    requires |events| > MAX_ATTEMPTS
    ensures if ifMatch == Some("") then o == Outcome(Precondition, 0, 0) else Run(FRESH, events) == Some(o)
  {
    hide Run, Decide, Advance, Settle;
    if ifMatch == Some("") {
      return Outcome(Precondition, 0, 0);
    }
    var state := new ConditionalPutState();
    var waited: nat := 0;
    while true
      invariant state.attempts <= MAX_ATTEMPTS
      invariant match Run(state.View(), events[state.attempts..])
                case None => Run(FRESH, events) == None
                case Some(rest) =>
                  Run(FRESH, events) == Some(Outcome(rest.result, rest.attempts + state.attempts, rest.waited + waited))
      decreases MAX_ATTEMPTS - state.attempts
    {
      var event := events[state.attempts];
      ghost var rest := events[state.attempts..];
      assert rest[0] == event && rest[1..] == events[state.attempts + 1..];
      RunStep(state.View(), rest);
      var action := state.Transition(event);
      if !action.Retry? {
        return Outcome(Settle(action), state.attempts, waited);
      }
      waited := waited + action.millis;
    }
  }

  // Every run ends, soon -------------------------------------------------------------------------

  function Waits(from: nat): nat
    requires from <= MAX_ATTEMPTS
    decreases MAX_ATTEMPTS - from
  {
    if from == MAX_ATTEMPTS then 0 else Backoff(from) + Waits(from + 1)
  }

  lemma {:induction false} RunEnds(s: State, events: seq<Event>)
    requires s.attempts <= MAX_ATTEMPTS && |events| > MAX_ATTEMPTS - s.attempts
    ensures Run(s, events).Some?
    ensures Run(s, events).value.attempts <= MAX_ATTEMPTS + 1 - s.attempts
    ensures Run(s, events).value.waited <= Waits(s.attempts)
    decreases |events|
  {
    hide Backoff, Settle;
    if Decide(s, events[0]).Retry? {
      RunEnds(Advance(s, events[0]), events[1..]);
    }
  }

  lemma AllWaits()
    ensures Waits(0) == 5575
  {
    assert Power2(0) == 1 && Power2(1) == 2 && Power2(2) == 4 && Power2(3) == 8 && Power2(4) == 16;
    assert Power2(5) == 32 && Power2(6) == 64 && Power2(7) == 128 && Power2(8) == 256 && Power2(9) == 512;
    assert Waits(10) == 0 && Waits(9) == 1000 && Waits(8) == 2000 && Waits(7) == 3000 && Waits(6) == 4000;
    assert Waits(5) == 4800 && Waits(4) == 5200 && Waits(3) == 5400 && Waits(2) == 5500 && Waits(1) == 5550;
  }

  /** A write ends within eleven attempts and 5575 ms of waiting. */
  lemma {:induction false} WritesEnd(events: seq<Event>)
    requires |events| > MAX_ATTEMPTS
    ensures Run(FRESH, events).Some?
    ensures 1 <= Run(FRESH, events).value.attempts <= 11 && Run(FRESH, events).value.waited <= 5575
  {
    RunEnds(FRESH, events);
    AllWaits();
    AttemptsCounted(FRESH, events);
  }

  lemma {:induction false} AttemptsCounted(s: State, events: seq<Event>)
    requires Run(s, events).Some?
    ensures 1 <= Run(s, events).value.attempts <= |events|
    decreases |events|
  {
    if Decide(s, events[0]).Retry? {
      AttemptsCounted(Advance(s, events[0]), events[1..]);
    }
  }

  // What the result means for the object -----------------------------------------------------------

  /**
   Whether an attempt took effect at the store, as far as its answer tells: a success did, a
   definite failure did not, and a lost answer leaves both possible.
   */
  predicate Honest(event: Event, landed: bool)
  {
    match event
    case Failed(fact) => fact.MaybeApplied? || !landed
    case _ => landed
  }

  ghost predicate Truth(events: seq<Event>, landed: seq<bool>)
  {
    |landed| == |events| && forall i :: 0 <= i < |events| ==> Honest(events[i], landed[i])
  }

  predicate IsLost(event: Event)
  {
    event.Failed? && event.fact.MaybeApplied?
  }

  /** Some attempt before the last one was lost. */
  ghost predicate Tainted(events: seq<Event>, attempts: nat)
    requires attempts <= |events|
  {
    exists i :: 0 <= i < attempts - 1 && IsLost(events[i])
  }

  predicate Definitive(r: Result)
  {
    r.Precondition? || r.NotFound? || r.Other?
  }

  predicate Retriable(event: Event)
  {
    event.Failed? && (event.fact.Conflict? || event.fact.Throttle? || event.fact.MaybeApplied?)
  }

  /** The run up to its last attempt: each earlier one was retried, and the last one decided. */
  lemma {:induction false} LastDecides(s: State, events: seq<Event>)
    requires s.attempts <= MAX_ATTEMPTS && Run(s, events).Some?
    ensures var n := Run(s, events).value.attempts;
            && 1 <= n <= |events| && s.attempts + n <= MAX_ATTEMPTS + 1
            && (forall i :: 0 <= i < n - 1 ==> Retriable(events[i]))
            && var last := State(s.attempts + n - 1, s.mayHaveApplied || Tainted(events, n));
               !Decide(last, events[n - 1]).Retry? && Run(s, events).value.result == Settle(Decide(last, events[n - 1]))
    decreases |events|
  {
    hide Backoff, Settle;
    if Decide(s, events[0]).Retry? {
      var next, rest := Advance(s, events[0]), events[1..];
      LastDecides(next, rest);
      var n := Run(s, events).value.attempts;
      forall i | 0 <= i < n - 1
        ensures Retriable(events[i])
      {
        assert i > 0 ==> events[i] == rest[i - 1];
      }
      TaintedTail(events, n);
    }
  }

  lemma TaintedTail(events: seq<Event>, n: nat)
    requires 1 < n <= |events|
    ensures Tainted(events, n) <==> IsLost(events[0]) || Tainted(events[1..], n - 1)
  {
    var rest := events[1..];
    if Tainted(rest, n - 1) {
      var i :| 0 <= i < n - 2 && IsLost(rest[i]);
      assert IsLost(events[i + 1]);
    }
    if Tainted(events, n) {
      var i :| 0 <= i < n - 1 && IsLost(events[i]);
      assert i > 0 ==> IsLost(rest[i - 1]);
    }
  }

  // What is reported, by the last answer --------------------------------------------------------

  /** A conflict is tried again five times, a throttled or a lost attempt ten times. */
  predicate TriedAgain(event: Event, i: nat)
  {
    event.Failed? && ((event.fact.Conflict? && i < 5) || ((event.fact.Throttle? || event.fact.MaybeApplied?) && i < 10))
  }

  /** What a last answer is reported as, when an earlier attempt may have landed and when none may. */
  function Report(event: Event, tainted: bool): Result
  {
    match event
    case Applied(revision) => Revision(revision)
    case AppliedWithoutRevision => InDoubt
    case Failed(fact) =>
      if tainted then InDoubt
      else if fact.PreconditionFailed? || fact.Conflict? then Precondition
      else if fact.Missing? then NotFound
      else Other
  }

  /**
   The attempts go on exactly as long as the answers are tried again, and the answer that is
   not decides what is reported: in particular a revision exactly if it was applied, and then
   the revision the store gave.
   */
  lemma {:induction false} ReportsExactly(events: seq<Event>)
    requires |events| > MAX_ATTEMPTS
    ensures Run(FRESH, events).Some?
    ensures var n := Run(FRESH, events).value.attempts;
            && 1 <= n <= |events|
            && (forall i :: 0 <= i < n - 1 ==> TriedAgain(events[i], i)) && !TriedAgain(events[n - 1], n - 1)
            && Run(FRESH, events).value.result == Report(events[n - 1], Tainted(events, n))
            && (forall x :: Run(FRESH, events).value.result == Revision(x) <==> events[n - 1] == Applied(x))
  {
    hide Run, Tainted, Backoff;
    RunEnds(FRESH, events);
    LastDecides(FRESH, events);
    var n := Run(FRESH, events).value.attempts;
    forall i | 0 <= i < n - 1 ensures TriedAgain(events[i], i) {
      RetriedAt(FRESH, events, i);
    }
  }

  // What is waited ----------------------------------------------------------------------------------

  /** The waits between attempts, in milliseconds: doubling from 25, at most a second. */
  function Delay(i: nat): nat
  {
    match i case 0 => 25 case 1 => 50 case 2 => 100 case 3 => 200 case 4 => 400 case 5 => 800 case _ => 1000
  }

  lemma {:induction false} PowersGrow(n: nat)
    requires n >= 6
    ensures Power2(n) >= 64
  {
    if n == 6 {
      assert Power2(0) == 1 && Power2(1) == 2 && Power2(2) == 4 && Power2(3) == 8 && Power2(4) == 16 && Power2(5) == 32;
    } else {
      PowersGrow(n - 1);
    }
  }

  lemma BacksOffExactly(i: nat)
    ensures Backoff(i) == Delay(i)
  {
    assert Power2(0) == 1 && Power2(1) == 2 && Power2(2) == 4 && Power2(3) == 8 && Power2(4) == 16 && Power2(5) == 32;
    if i >= 6 {
      PowersGrow(i);
    }
  }

  function Delays(from: nat, count: nat): nat
    decreases count
  {
    if count == 0 then 0 else Delay(from) + Delays(from + 1, count - 1)
  }

  lemma {:induction false} RunWaits(s: State, events: seq<Event>)
    requires Run(s, events).Some?
    ensures Run(s, events).value.attempts >= 1
    ensures Run(s, events).value.waited == Delays(s.attempts, Run(s, events).value.attempts - 1)
    decreases |events|
  {
    hide Backoff, Settle, Delay;
    if Decide(s, events[0]).Retry? {
      RunWaits(Advance(s, events[0]), events[1..]);
      BacksOffExactly(s.attempts);
    }
  }

  /** Between attempts a write waits exactly the listed delays, one after each attempt but the last. */
  lemma {:induction false} WaitsExactly(events: seq<Event>)
    requires |events| > MAX_ATTEMPTS
    ensures Run(FRESH, events).Some? && Run(FRESH, events).value.attempts >= 1
    ensures Run(FRESH, events).value.waited == Delays(0, Run(FRESH, events).value.attempts - 1)
  {
    hide Run;
    RunEnds(FRESH, events);
    RunWaits(FRESH, events);
  }

  /** A reported precondition failure means that no attempt took effect. */
  lemma {:induction false} PreconditionMeansUnapplied(events: seq<Event>, landed: seq<bool>)
    requires Run(FRESH, events).Some? && Truth(events, landed)
    requires Run(FRESH, events).value.result == Precondition
    ensures forall i :: 0 <= i < Run(FRESH, events).value.attempts <= |events| ==> !landed[i]
  {
    LastDecides(FRESH, events);
  }

  /** Once an attempt was lost, only a revision or an in-doubt report can follow. */
  lemma {:induction false} LostAttemptsAreNeverForgotten(events: seq<Event>)
    requires Run(FRESH, events).Some? && Run(FRESH, events).value.attempts <= |events|
    requires Tainted(events, Run(FRESH, events).value.attempts)
    ensures !Definitive(Run(FRESH, events).value.result)
  {
    LastDecides(FRESH, events);
  }

  /**
   The one way a definitive error can hide a write that took effect: ten retries that were
   all answered, and then a lost answer at the eleventh attempt.
   */
  ghost predicate LostAtTheEnd(events: seq<Event>)
  {
    && |events| > MAX_ATTEMPTS && IsLost(events[MAX_ATTEMPTS])
    && (forall i :: 0 <= i < MAX_CONFLICT_RETRIES ==>
          events[i].Failed? && (events[i].fact.Conflict? || events[i].fact.Throttle?))
    && (forall i :: MAX_CONFLICT_RETRIES <= i < MAX_ATTEMPTS ==> events[i].Failed? && events[i].fact.Throttle?)
  }

  /** Some honest account of the attempts has a write that a definitive error hides. */
  ghost predicate CanHide(events: seq<Event>)
  {
    && Run(FRESH, events).Some? && Definitive(Run(FRESH, events).value.result)
    && exists landed, i :: Truth(events, landed) && 0 <= i < Run(FRESH, events).value.attempts <= |events| && landed[i]
  }

  lemma HiddenExactlyAtTheEnd(events: seq<Event>)
    requires |events| > MAX_ATTEMPTS
    ensures CanHide(events) <==> LostAtTheEnd(events)
  {
    RunEnds(FRESH, events);
    LastDecides(FRESH, events);
    if CanHide(events) {
      HidingNeedsAll(events);
    }
    if LostAtTheEnd(events) {
      AllAnswered(FRESH, events);
      HonestAccount(events, MAX_ATTEMPTS);
    }
  }

  /** Ten throttled attempts and a lost eleventh: the write may have landed, and an error hides it. */
  lemma ThrottledThenLostCanHide()
    ensures CanHide(seq(MAX_ATTEMPTS, _ => Failed(Throttle)) + [Failed(MaybeApplied)])
  {
    HiddenExactlyAtTheEnd(seq(MAX_ATTEMPTS, _ => Failed(Throttle)) + [Failed(MaybeApplied)]);
  }

  lemma HidingNeedsAll(events: seq<Event>)
    requires |events| > MAX_ATTEMPTS && CanHide(events)
    ensures LostAtTheEnd(events)
  {
    LastDecides(FRESH, events);
    var n := Run(FRESH, events).value.attempts;
    var landed, i :| Truth(events, landed) && 0 <= i < n && landed[i];
    assert IsLost(events[i]);
    assert i == n - 1;
    assert n == MAX_ATTEMPTS + 1;
    forall j | 0 <= j < MAX_ATTEMPTS
      ensures events[j].Failed? && (events[j].fact.Throttle? || (j < MAX_CONFLICT_RETRIES && events[j].fact.Conflict?))
    {
      assert !IsLost(events[j]);
      RetriedAt(FRESH, events, j);
    }
  }

  /** An attempt that was retried was retried under the policy of its index. */
  lemma {:induction false} RetriedAt(s: State, events: seq<Event>, j: nat)
    requires Run(s, events).Some? && j + 1 < Run(s, events).value.attempts <= |events|
    ensures events[j].Failed?
    ensures events[j].fact.Conflict? ==> s.attempts + j < MAX_CONFLICT_RETRIES
    decreases |events|
  {
    if j > 0 {
      AttemptsCounted(Advance(s, events[0]), events[1..]);
      RetriedAt(Advance(s, events[0]), events[1..], j - 1);
    }
  }

  /** A run of answered attempts up to the last one ends there, untainted, with a lost answer. */
  lemma {:induction false} AllAnswered(s: State, events: seq<Event>)
    requires s.attempts <= MAX_ATTEMPTS && !s.mayHaveApplied && |events| > MAX_ATTEMPTS - s.attempts
    requires IsLost(events[MAX_ATTEMPTS - s.attempts])
    requires forall i :: 0 <= i < MAX_ATTEMPTS - s.attempts ==>
               events[i].Failed? &&
               (events[i].fact.Throttle? || (events[i].fact.Conflict? && s.attempts + i < MAX_CONFLICT_RETRIES))
    ensures Run(s, events).Some?
    ensures Run(s, events).value.attempts == MAX_ATTEMPTS + 1 - s.attempts && Run(s, events).value.result == Other
    decreases |events|
  {
    if s.attempts < MAX_ATTEMPTS {
      AllAnswered(Advance(s, events[0]), events[1..]);
    }
  }

  lemma HonestAccount(events: seq<Event>, k: nat)
    requires k < |events| && IsLost(events[k])
    ensures exists landed, i :: Truth(events, landed) && 0 <= i <= k && landed[i]
  {
    var landed := seq(|events|, i requires 0 <= i < |events| => i == k || !events[i].Failed?);
    assert Truth(events, landed) && landed[k];
  }
}
