/**
 The stored lifecycle machine of one key: its queue object and its phase, changed in place
 by one method per locked transition. Each method is proved to perform the transition of
 `DedupMachine` with the same name.
 */
module KeyMachines {
  import opened Sequences
  import opened DedupQueue
  import opened KeyQueues
  import opened DedupMachine

  class KeyMachine<R(!new)> {
    const queue: KeyQueue<R>
    var phase: Phase

    function View(): Machine<R>
      reads this, queue
    {
      Machine(queue.View(), phase)
    }

    constructor (policy: Policy<R>, seed: Member<R>, inline: nat)
      ensures fresh(queue) && queue.policy == policy
      ensures View() == NewMachine(seed, inline)
    {
      queue := new KeyQueue(policy, seed);
      phase := Ready(Driver(inline, Inline));
    }

    method Submit(member: Member<R>)
      modifies queue
      ensures View() == DedupMachine.Submit(queue.policy, old(View()), member)
    {
      queue.Enqueue(member);
    }

    method StartRound(id: nat, closing: bool, signal: nat, dead: set<nat>, later: set<nat>)
      returns (action: Action, reply: Reply<R>, discarded: seq<Member<R>>)
      modifies this, queue
      ensures Step(View(), action, reply, discarded, []) ==
              DedupMachine.StartRound(queue.policy, old(View()), id, closing, signal, dead, later)
    {
      action, reply, discarded := Keep, Nothing, [];
      if !(phase.Ready? && phase.driver.id == id) {
        return;
      }
      if closing {
        action := Remove;
        return;
      }
      var status;
      status, discarded := queue.FormBatch(dead, later);
      match status
      case NothingToRun => action := Remove;
      case NonMergeable => reply := Panicked;
      case BatchReady =>
        phase := Running(phase.driver, signal);
        reply := Started(signal);
    }

    method Refresh(id: nat, dead: set<nat>) returns (reply: Reply<R>, discarded: seq<Member<R>>)
      modifies queue
      ensures Step(View(), Keep, reply, discarded, []) ==
              DedupMachine.Refresh(queue.policy, old(View()), id, dead)
    {
      reply, discarded := Nothing, [];
      if !(phase.Running? && phase.driver.id == id) {
        return;
      }
      var status;
      status, discarded := queue.RefreshBatch(dead);
      match status
      case NothingToRun => reply := Aborted(phase.signal);
      case NonMergeable => reply := Panicked;
      case BatchReady =>
        if queue.merged.Some? {
          reply := Request(queue.merged.value);
        }
    }

    method RoundFinished(id: nat, outcome: Outcome)
      returns (action: Action, reply: Reply<R>, discarded: seq<Member<R>>, delivery: seq<Member<R>>)
      modifies this, queue
      ensures Step(View(), action, reply, discarded, delivery) ==
              DedupMachine.RoundFinished(old(View()), id, outcome)
    {
      action, reply, discarded, delivery := Keep, Nothing, [], [];
      if !(phase.Running? && phase.driver.id == id) {
        return;
      }
      var driver := phase.driver;
      match outcome {
        case Done(_) => delivery := queue.TakeBatch();
        case Liveness => discarded := queue.TakeBatch();
        case Shutdown =>
          action := Remove;
          return;
      }
      phase := Completing(driver);
      reply := Finished;
    }

    method FinalizeCompletion(id: nat, successor: nat, dead: set<nat>)
      returns (action: Action, reply: Reply<R>, discarded: seq<Member<R>>)
      modifies this, queue
      ensures Step(View(), action, reply, discarded, []) ==
              DedupMachine.FinalizeCompletion(old(View()), id, successor, dead)
    {
      action, reply, discarded := Keep, Nothing, [];
      if !(phase.Completing? && phase.driver.id == id) {
        return;
      }
      var more;
      more, discarded := queue.HasIncomingLive(dead);
      if !more {
        action := Remove;
      } else if phase.driver.kind == Inline {
        phase := Handoff(successor);
        action := SpawnOwner(successor);
      } else {
        phase := Ready(phase.driver);
        reply := Again;
      }
    }

    method DriverDropped(id: nat, closing: bool, successor: nat, dead: set<nat>, later: set<nat>)
      returns (action: Action, reply: Reply<R>, discarded: seq<Member<R>>)
      modifies this, queue
      ensures Step(View(), action, reply, discarded, []) ==
              DedupMachine.DriverDropped(queue.policy, old(View()), id, closing, successor, dead, later)
    {
      action, reply, discarded := Keep, Nothing, [];
      if phase.Handoff? || phase.driver.id != id {
        return;
      }
      if phase.Running? {
        reply := Aborted(phase.signal);
      }
      discarded := queue.RequeueBatch(dead);
      if closing {
        action := Remove;
        return;
      }
      var more, pruned := queue.HasIncomingLive(later);
      discarded := discarded + pruned;
      if more {
        phase := Handoff(successor);
        action := SpawnOwner(successor);
      } else {
        action := Remove;
      }
    }

    method OwnerStarted(id: nat) returns (reply: Reply<R>)
      modifies this
      ensures Step(View(), Keep, reply, [], []) == DedupMachine.OwnerStarted(old(View()), id)
    {
      reply := Nothing;
      if phase.Handoff? && phase.reserved == id {
        phase := Ready(Driver(id, Owner));
        reply := Accepted;
      }
    }
  }
}
