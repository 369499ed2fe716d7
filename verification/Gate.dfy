/** The initial-enrichment coordinator (internal/app/enrichment*.go): the fields its mutex guards, and one function per
    critical section. A lifecycle error is the set of causes joined into it; the empty set is "no error". `parent` is
    the cause of the parent context once that is cancelled. */
module Gate {
  import opened Basics
  import opened Protocol
  import opened Actor

  datatype PendingEvent = PendingEvent(
    generation: nat, closeInput: bool, finalized: bool, applied: bool, loadRequested: bool)

  datatype Gate = Gate(
    active: bool, activated: bool, terminal: bool, terminalErr: set<Error>, committing: bool, inFlight: int,
    baseGeneration: nat, nextEventID: nat, eventCancels: set<nat>, pendingEvents: map<nat, PendingEvent>,
    parent: set<Error>, terminalFinalized: bool)

  function NewGate(): Gate { Gate(true, false, false, {}, false, 0, 0, 0, {}, map[], {}, false) }

  // ----- critical sections

  /** The parent context is cancelled; only the first cause sticks. */
  function CancelParent(g: Gate, cause: Error): Gate { if g.parent == {} then g.(parent := {cause}) else g }

  /** deactivateLocked: zoxide may never publish again; the parent's cause joins the given one, unless the lifecycle
      error was already reported. */
  function Deactivate(g: Gate, cause: set<Error>): Gate {
    g.(active := false,
       terminalErr := if !g.active && g.terminalFinalized then g.terminalErr else g.terminalErr + cause + g.parent)
  }

  /** Wait, once the source goroutine is done: the lifecycle error is fixed and reported. */
  function FinishWait(g: Gate): Gate {
    if g.terminalFinalized then g else g.(terminalErr := g.terminalErr + g.parent, terminalFinalized := true)
  }

  predicate CanActivate(g: Gate, base: nat) { base != 0 && !g.activated && g.active && g.parent == {} }

  function Activate(g: Gate, base: nat): Gate { g.(activated := true, baseGeneration := base) }

  predicate CanReserve(g: Gate) { !g.terminal && !g.committing && g.inFlight == 0 && g.nextEventID != MAX_UINT64 }

  /** reserveEvent, for the pass of its loop that succeeds. */
  function Reserve(g: Gate): Gate {
    var id := g.nextEventID + 1;
    g.(nextEventID := id, eventCancels := g.eventCancels + {id}, inFlight := g.inFlight + 1)
  }

  function Release(g: Gate): Gate { if g.inFlight > 0 then g.(inFlight := g.inFlight - 1) else g }

  predicate Restores(opcode: Opcode, e: Effect) { opcode == OpRestoreView && e.restore != 0 }

  /** The reservation a successful event leaves behind for its callback. */
  function Reservation(opcode: Opcode, e: Effect): PendingEvent {
    PendingEvent(if e.reload != 0 then e.reload else e.restore,
                 e.reload != 0 || Restores(opcode, e) || e.invalidPath, false, false, false)
  }

  /** resolveEvent. */
  function Resolve(g: Gate, id: nat, opcode: Opcode, reply: Reply): Gate {
    if id !in g.eventCancels then g
    else
      var g := g.(eventCancels := g.eventCancels - {id});
      if reply.Failed? || g.terminal then Release(g)
      else
        Restrict(g.(pendingEvents := g.pendingEvents[id := Reservation(opcode, reply.effect)]),
                 opcode, reply.snapshot.generation, reply.effect)
  }

  /** What a successful event means for zoxide: accepting or aborting ends the session, and a navigation, a restored
      view or an emptied list turns publication off for good. */
  function Restrict(g: Gate, opcode: Opcode, generation: nat, e: Effect): Gate {
    if e.accept || e.abort then Deactivate(g.(terminal := true), {})
    else if (Restores(opcode, e) || e.invalidPath) && g.active then Deactivate(g, {})
    else if e.reload != 0 && g.active then
      Deactivate(if generation != 0 then g.(baseGeneration := generation) else g, {})
    else g
  }

  /** Whether HandleEvent reports success for the event it resolves. */
  predicate Acknowledged(g: Gate, id: nat, reply: Reply) {
    reply.Done? && (id in g.eventCancels && g.terminal ==> g.terminalErr == {})
  }

  function SetBase(g: Gate, generation: nat): Gate { if generation == 0 then g else g.(baseGeneration := generation) }

  /** FinalizeEvent of an action that was applied. */
  function FinalizeEvent(g: Gate, id: nat): Gate {
    if id !in g.pendingEvents || g.pendingEvents[id].finalized then g
    else if g.pendingEvents[id].generation == 0 then Release(g.(pendingEvents := g.pendingEvents - {id}))
    else g.(pendingEvents := g.pendingEvents[id := g.pendingEvents[id].(finalized := true, applied := true)])
  }

  /** What ValidateLoad does on one pass: refuse, wait for the finalization, or let the load through. */
  datatype LoadCheck = LoadRefused | LoadWaits | LoadReady

  function CheckLoad(g: Gate, id: nat, generation: nat): LoadCheck {
    if id !in g.pendingEvents || id == 0 || generation == 0 || g.pendingEvents[id].generation != generation
       || g.pendingEvents[id].loadRequested then LoadRefused
    else if g.pendingEvents[id].finalized && g.pendingEvents[id].applied then LoadReady
    else LoadWaits
  }

  /** BeginLoad, when it does not refuse. */
  function BeginLoad(g: Gate, id: nat): Gate
    requires id in g.pendingEvents
  {
    g.(pendingEvents := g.pendingEvents[id := g.pendingEvents[id].(loadRequested := true)])
  }

  predicate CanFinalizeLoad(g: Gate, id: nat) {
    && id in g.pendingEvents && g.pendingEvents[id].finalized && g.pendingEvents[id].applied
    && g.pendingEvents[id].loadRequested
  }

  /** FinalizeLoad of a load that was written out. */
  function FinalizeLoad(g: Gate, id: nat): Gate {
    if CanFinalizeLoad(g, id) then Release(g.(pendingEvents := g.pendingEvents - {id})) else g
  }

  /** Stop and failCallbackApplication: no further event, every finished reservation dropped. */
  function Stop(g: Gate, cause: set<Error>): Gate {
    Deactivate(g.(terminal := true), cause).(pendingEvents := map[], inFlight := |g.eventCancels|)
  }

  predicate CanCommit(g: Gate) { g.active && !g.terminal && g.inFlight == 0 }

  function BeginCommit(g: Gate): Gate { g.(committing := true) }

  function FinishCommit(g: Gate, published: Option<nat>, cause: set<Error>): Gate {
    Deactivate(if published.Some? then g.(baseGeneration := published.value) else g, cause).(committing := false)
  }

  // ----- accounting

  /** The one event outstanding, if any, is the newest: it is either being handled or waiting for its callback. */
  ghost predicate Accounted(g: Gate) {
    Outstanding(g.nextEventID, g.eventCancels, g.pendingEvents, g.inFlight, g.committing, g.active)
  }

  ghost predicate Outstanding(id: nat, cancels: set<nat>, pending: map<nat, PendingEvent>, inFlight: int,
                              committing: bool, active: bool)
  {
    && id <= MAX_UINT64
    && (cancels == {} || cancels == {id})
    && (pending == map[] || pending.Keys == {id})
    && (cancels == {} || pending == map[])
    && inFlight == (if cancels == {} && pending == map[] then 0 else 1)
    && (inFlight == 1 ==> id > 0)
    && (committing ==> inFlight == 0)
    && (id in pending ==> ReservationOk(active, pending[id]))
  }

  /** A load is only ever awaited after the event was applied and zoxide publication is off. */
  predicate ReservationOk(active: bool, p: PendingEvent) {
    && p.applied == p.finalized
    && (p.finalized ==> p.generation != 0)
    && (p.loadRequested ==> p.finalized)
    && (p.generation != 0 ==> !active)
  }

  /** inFlight counts exactly the events being handled and the reservations held, and there is never more than one. */
  lemma InFlightCounts(g: Gate)
    requires Accounted(g)
    ensures g.inFlight == |g.eventCancels| + |g.pendingEvents| && g.inFlight <= 1
    ensures g.committing ==> g.eventCancels == {} && g.pendingEvents == map[]
  {
    assert g.pendingEvents != map[] ==> |g.pendingEvents| == |g.pendingEvents.Keys|;
  }

  lemma ReserveAccounted(g: Gate)
    requires Accounted(g) && CanReserve(g)
    ensures Accounted(Reserve(g)) && Reserve(g).eventCancels == {Reserve(g).nextEventID}
    ensures g.nextEventID < Reserve(g).nextEventID <= MAX_UINT64
  {
    assert g.eventCancels == {};
  }

  /** resolveEvent keeps the accounting exactly when a load the event will wait for finds publication off: a failure, an
      unknown event or a terminal coordinator never breaks it, and an unscreened restore does. */
  lemma ResolveAccounted(g: Gate, id: nat, opcode: Opcode, reply: Reply)
    requires Accounted(g)
    ensures Accounted(Resolve(g, id, opcode, reply)) <==>
              (id in g.eventCancels && !g.terminal && reply.Done? && reply.effect.restore != 0 ==>
                 ReloadsOnlyWhenOff(g, opcode, reply.effect))
  {
    if id in g.eventCancels {
      assert g.eventCancels - {id} == {};
      if reply.Done? && !g.terminal { SuccessAccounted(g, id, opcode, reply.snapshot, reply.effect); }
    }
  }

  lemma SuccessAccounted(g: Gate, id: nat, opcode: Opcode, s: Snapshot, e: Effect)
    requires Accounted(g) && id in g.eventCancels && !g.terminal
    ensures Accounted(Resolve(g, id, opcode, Done(s, e))) <==> (e.restore != 0 ==> ReloadsOnlyWhenOff(g, opcode, e))
  {
    ResolveSummary(g, id, opcode, s, e);
    var h := Resolve(g, id, opcode, Done(s, e));
    assert h.pendingEvents.Keys == {id};
  }

  /** Screening has done its work: a restore that outlives it finds publication off, or turns it off. */
  predicate ReloadsOnlyWhenOff(g: Gate, opcode: Opcode, e: Effect) {
    TurnsOff(opcode, e) || !g.active
  }

  /** What resolving a successful event comes to, without the branches. */
  predicate ResolvesTo(g: Gate, h: Gate, id: nat, opcode: Opcode, e: Effect) {
    && h.eventCancels == {} && h.nextEventID == g.nextEventID
    && h.activated == g.activated && h.committing == g.committing
    && h.terminal == (g.terminal || e.accept || e.abort)
    && h.active == (g.active && (g.terminal || !TurnsOff(opcode, e)))
    && h.pendingEvents == (if g.terminal then map[] else map[id := Reservation(opcode, e)])
    && (h.baseGeneration == g.baseGeneration || e.reload != 0)
  }

  /** The callback that reports the event applied is told to close the initial stream exactly when the effect replaces
      its list for good, and the event then waits for a load exactly when the effect asks for a generation. */
  lemma ReservationMeans(h: Gate, id: nat, opcode: Opcode, e: Effect)
    requires h.pendingEvents == map[id := Reservation(opcode, e)] && id > 0
    ensures var asked, applied := if e.reload != 0 then e.reload else e.restore, FinalizeEvent(h, id);
            && (h.pendingEvents[id].closeInput <==>
                  e.reload != 0 || (opcode == OpRestoreView && e.restore != 0) || e.invalidPath)
            && (id in applied.pendingEvents <==> asked != 0)
            && CheckLoad(h, id, asked) == (if asked != 0 then LoadWaits else LoadRefused)
            && CheckLoad(applied, id, asked) == (if asked != 0 then LoadReady else LoadRefused)
  {
  }

  /** A navigation that turns publication off leaves its own generation as the base. */
  lemma NavigationSetsBase(g: Gate, id: nat, opcode: Opcode, s: Snapshot, e: Effect)
    requires id in g.eventCancels && !g.terminal && g.active && s.generation != 0
    requires e.reload != 0 && !TurnsOff(opcode, e.(reload := 0))
    ensures Resolve(g, id, opcode, Done(s, e)).baseGeneration == s.generation
  {
  }

  /** A load that waits is let through by the acknowledgement of its event and by nothing else; a load that is refused
      is refused for good as long as no event is resolved. */
  lemma LoadDecided(g: Gate, id: nat, generation: nat, other: nat)
    requires Accounted(g)
    ensures var check := CheckLoad(g, id, generation);
            && (check.LoadWaits? ==> CheckLoad(FinalizeEvent(g, id), id, generation).LoadReady?)
            && (check.LoadReady? ==> CheckLoad(FinalizeEvent(g, other), id, generation).LoadReady?
                                     && CheckLoad(BeginLoad(g, id), id, generation).LoadRefused?)
            && (check.LoadRefused? ==>
                  && CheckLoad(FinalizeEvent(g, other), id, generation).LoadRefused?
                  && CheckLoad(FinalizeLoad(g, other), id, generation).LoadRefused?)
  {
  }

  // ----- the lifecycle error

  /** What never goes back: causes already gathered or reported, the parent's cause, activation. */
  predicate Lasting(g: Gate, h: Gate) {
    && g.terminalErr <= h.terminalErr
    && (g.terminalFinalized ==> h.terminalFinalized)
    && (g.terminalFinalized && !g.active ==> h.terminalErr == g.terminalErr)
    && (g.parent != {} ==> h.parent == g.parent)
    && (g.activated ==> h.activated)
  }

  /** The session ends or another list is shown: zoxide may not publish any more. */
  predicate TurnsOff(opcode: Opcode, e: Effect) {
    e.accept || e.abort || e.reload != 0 || e.invalidPath || Restores(opcode, e)
  }

  lemma ResolveSummary(g: Gate, id: nat, opcode: Opcode, s: Snapshot, e: Effect)
    requires Accounted(g) && id in g.eventCancels
    ensures ResolvesTo(g, Resolve(g, id, opcode, Done(s, e)), id, opcode, e)
  {
    assert g.eventCancels - {id} == {};
    assert g.pendingEvents == map[];
  }

  lemma FinalizeEventAccounted(g: Gate, id: nat)
    requires Accounted(g)
    ensures Accounted(FinalizeEvent(g, id))
  {
    if id in g.pendingEvents {
      assert id == g.nextEventID;
      assert (g.pendingEvents - {id}).Keys == {};
    }
  }

  lemma LoadAccounted(g: Gate, id: nat, generation: nat)
    requires Accounted(g)
    ensures CheckLoad(g, id, generation).LoadReady? ==> Accounted(BeginLoad(g, id))
    ensures Accounted(FinalizeLoad(g, id))
  {
    if id in g.pendingEvents {
      assert id == g.nextEventID;
      assert (g.pendingEvents - {id}).Keys == {};
    }
  }

  lemma StopAccounted(g: Gate, cause: set<Error>)
    requires Accounted(g)
    ensures Accounted(Stop(g, cause))
  {
  }

  /** Wherever the source guards a decrement with inFlight > 0, the guard holds. */
  lemma DecrementGuardsRedundant(g: Gate, id: nat)
    requires Accounted(g)
    ensures id in g.eventCancels ==> g.inFlight > 0
    ensures id in g.pendingEvents ==> g.inFlight > 0
  {
  }

  /** An acknowledged event holds a reservation exactly when the coordinator was not terminal. The exception is real:
      Stop with no cause leaves no terminal error, so an event still being handled is then acknowledged without one. */
  lemma AcknowledgedIffReserved(g: Gate, id: nat, opcode: Opcode, reply: Reply)
    requires Accounted(g) && id in g.eventCancels && Acknowledged(g, id, reply)
    ensures id in Resolve(g, id, opcode, reply).pendingEvents <==> !g.terminal
  {
    assert g.eventCancels - {id} == {};
  }

  lemma StoppedEventStillAcknowledged(opcode: Opcode, snapshot: Snapshot)
    ensures var g := Stop(Reserve(Activate(NewGate(), 1)), {});
            && Acknowledged(g, 1, Done(snapshot, NO_EFFECT))
            && 1 !in Resolve(g, 1, opcode, Done(snapshot, NO_EFFECT)).pendingEvents
  {
  }
}
