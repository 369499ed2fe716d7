/** The coordinator as the object it is: fields updated under one mutex. Each method is one critical section, proved to
    compute the function of module Gate that the composition theorems are about. */
module Coordinator {
  import opened Basics
  import opened Protocol
  import opened Actor
  import G = Gate

  class InitialEnrichment {
    var active: bool
    var activated: bool
    var terminal: bool
    var terminalErr: set<Error>
    var committing: bool
    var inFlight: int
    var baseGeneration: nat
    var nextEventID: nat
    var eventCancels: set<nat>
    var pendingEvents: map<nat, G.PendingEvent>
    var parent: set<Error>
    var terminalFinalized: bool

    ghost function View(): G.Gate
      reads this
    {
      G.Gate(active, activated, terminal, terminalErr, committing, inFlight, baseGeneration, nextEventID,
             eventCancels, pendingEvents, parent, terminalFinalized)
    }

    constructor ()
      ensures View() == G.NewGate()
    {
      active, activated, terminal, terminalErr, committing := true, false, false, {}, false;
      inFlight, baseGeneration, nextEventID := 0, 0, 0;
      eventCancels, pendingEvents, parent, terminalFinalized := {}, map[], {}, false;
    }

    method DeactivateLocked(cause: set<Error>) returns (effective: set<Error>, changed: bool)
      modifies this`active, this`terminalErr
      ensures View() == G.Deactivate(old(View()), cause)
      ensures effective == terminalErr && changed == old(active)
    {
      var joined := cause + parent;
      changed := active;
      if !active {
        if joined != {} && !terminalFinalized {
          terminalErr := terminalErr + joined;
        }
        return terminalErr, false;
      }
      active := false;
      terminalErr := terminalErr + joined;
      return terminalErr, true;
    }

    method Activate(base: nat) returns (ok: bool)
      modifies this`activated, this`baseGeneration
      ensures ok == G.CanActivate(old(View()), base)
      ensures View() == (if ok then G.Activate(old(View()), base) else old(View()))
    {
      if base == 0 || activated || !active || parent != {} {
        return false;
      }
      activated := true;
      baseGeneration := base;
      return true;
    }

    /** One pass of the reserveEvent loop; an ID of 0 means the caller must wait or give up. */
    method TryReserve() returns (id: nat)
      modifies this`nextEventID, this`eventCancels, this`inFlight
      ensures id != 0 <==> G.CanReserve(old(View()))
      ensures id != 0 ==> View() == G.Reserve(old(View())) && id == nextEventID
      ensures id == 0 ==> View() == old(View())
    {
      if terminal {
        return 0;
      }
      if !committing && inFlight == 0 {
        if nextEventID == MAX_UINT64 {
          return 0;
        }
        nextEventID := nextEventID + 1;
        eventCancels := eventCancels + {nextEventID};
        inFlight := inFlight + 1;
        return nextEventID;
      }
      return 0;
    }

    method ResolveEvent(id: nat, opcode: Opcode, reply: Reply) returns (acknowledged: bool)
      modifies this
      ensures View() == G.Resolve(old(View()), id, opcode, reply)
      ensures acknowledged == G.Acknowledged(old(View()), id, reply)
    {
      var held := id in eventCancels;
      eventCancels := eventCancels - {id};
      if !held {
        return reply.Done?;
      }
      if reply.Failed? || terminal {
        if inFlight > 0 {
          inFlight := inFlight - 1;
        }
        return reply.Done? && terminalErr == {};
      }
      Register(id, opcode, reply.effect);
      Restrict(opcode, reply.snapshot.generation, reply.effect);
      return true;
    }

    /** The reservation of a successful event. */
    method Register(id: nat, opcode: Opcode, effect: Effect)
      modifies this`pendingEvents
      ensures pendingEvents == old(pendingEvents)[id := G.Reservation(opcode, effect)]
    {
      var generation := if effect.reload != 0 then effect.reload else effect.restore;
      var closes := effect.reload != 0 || (opcode == OpRestoreView && effect.restore != 0) || effect.invalidPath;
      pendingEvents := pendingEvents[id := G.PendingEvent(generation, closes, false, false, false)];
    }

    /** What a successful event means for zoxide: nothing, publication off, or the end. */
    method Restrict(opcode: Opcode, generation: nat, effect: Effect)
      modifies this`active, this`terminal, this`terminalErr, this`baseGeneration
      ensures View() == G.Restrict(old(View()), opcode, generation, effect)
    {
      var restore := opcode == OpRestoreView && effect.restore != 0;
      if effect.accept || effect.abort {
        terminal := true;
        var _, _ := DeactivateLocked({});
      } else if (restore || effect.invalidPath) && active {
        var _, _ := DeactivateLocked({});
      } else if effect.reload != 0 && active {
        if generation != 0 {
          baseGeneration := generation;
        }
        var _, _ := DeactivateLocked({});
      }
    }

    /** FinalizeEvent: whether the initial stream must now be closed, or the callback failed. */
    method FinalizeEvent(id: nat, applied: bool) returns (closeInput: bool, failed: bool)
      modifies this`pendingEvents, this`inFlight
      ensures failed <==> !applied && id in old(pendingEvents) && !old(pendingEvents)[id].finalized
      ensures View() == (if applied then G.FinalizeEvent(old(View()), id) else old(View()))
      ensures closeInput <==>
                && applied && id in old(pendingEvents)
                && !old(pendingEvents)[id].finalized && old(pendingEvents)[id].closeInput
    {
      if id !in pendingEvents || pendingEvents[id].finalized {
        return false, false;
      }
      if !applied {
        return false, true;
      }
      var pending := pendingEvents[id].(finalized := true, applied := true);
      closeInput, failed := pending.closeInput, false;
      if pending.generation == 0 {
        pendingEvents := pendingEvents - {id};
        if inFlight > 0 {
          inFlight := inFlight - 1;
        }
      } else {
        pendingEvents := pendingEvents[id := pending];
      }
    }

    method BeginLoad(id: nat, generation: nat) returns (ok: bool)
      modifies this`pendingEvents
      ensures ok == G.CheckLoad(old(View()), id, generation).LoadReady?
      ensures View() == (if ok then G.BeginLoad(old(View()), id) else old(View()))
    {
      if id !in pendingEvents || id == 0 || generation == 0 {
        return false;
      }
      var pending := pendingEvents[id];
      if pending.generation != generation || !pending.finalized || !pending.applied || pending.loadRequested {
        return false;
      }
      pendingEvents := pendingEvents[id := pending.(loadRequested := true)];
      return true;
    }

    method FinalizeLoad(id: nat, applied: bool) returns (ok: bool, failed: bool)
      modifies this`pendingEvents, this`inFlight
      ensures ok == (applied && G.CanFinalizeLoad(old(View()), id))
      ensures View() == (if applied then G.FinalizeLoad(old(View()), id) else old(View()))
      ensures failed <==>
                && !applied && id in old(pendingEvents)
                && old(pendingEvents)[id].finalized && old(pendingEvents)[id].applied
    {
      if id !in pendingEvents || !pendingEvents[id].finalized || !pendingEvents[id].applied {
        return false, false;
      }
      if !applied {
        return false, true;
      }
      if !pendingEvents[id].loadRequested {
        return false, false;
      }
      pendingEvents := pendingEvents - {id};
      if inFlight > 0 {
        inFlight := inFlight - 1;
      }
      return true, false;
    }

    method Stop(cause: set<Error>) returns (effective: set<Error>, cancelled: set<nat>)
      modifies this
      ensures View() == G.Stop(old(View()), cause)
      ensures effective == terminalErr && cancelled == eventCancels
    {
      terminal := true;
      var changed;
      effective, changed := DeactivateLocked(cause);
      pendingEvents := map[];
      inFlight := |eventCancels|;
      cancelled := eventCancels;
    }

    /** One pass of the beginCommit loop. */
    method TryBeginCommit() returns (begun: bool)
      modifies this`committing
      ensures begun == G.CanCommit(old(View()))
      ensures begun ==> View() == G.BeginCommit(old(View()))
      ensures !begun ==> committing == (old(committing) && old(active) && !old(terminal))
    {
      if !active || terminal {
        committing := false;
        return false;
      }
      if !committing && inFlight == 0 {
        committing := true;
      }
      return inFlight == 0;
    }

    /** Wait, after the source goroutine is done. */
    method FinishWait() returns (effective: set<Error>)
      modifies this`terminalErr, this`terminalFinalized
      ensures View() == G.FinishWait(old(View()))
      ensures effective == terminalErr
    {
      if !terminalFinalized {
        terminalErr := terminalErr + parent;
        terminalFinalized := true;
      }
      return terminalErr;
    }

    method FinishCommit(published: Option<nat>, cause: set<Error>)
      modifies this
      ensures View() == G.FinishCommit(old(View()), published, cause)
    {
      if published.Some? {
        baseGeneration := published.value;
      }
      var _, _ := DeactivateLocked(cause);
      committing := false;
    }
  }
}
