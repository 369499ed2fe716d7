/** No reservation is held for ever by the protocol itself: whatever the coordinator waits for can still happen. */
module CompositionRelease {
  import opened Basics
  import opened Protocol
  import opened Actor
  import opened Gate
  import opened Events
  import opened Render
  import opened Composition
  import opened CompositionInv

  /** The moves lead from w to v, one after another. */
  ghost predicate Leads(cfg: Config, w: World, moves: seq<Move>, v: World)
    decreases |moves|
  {
    if moves == [] then v == w
    else Possible(w, moves[0]) && Leads(cfg, Moved(cfg, w, moves[0]), moves[1..], v)
  }

  lemma LeadsOn(cfg: Config, w: World, m: Move, moves: seq<Move>, v: World)
    requires Possible(w, m) && Leads(cfg, Moved(cfg, w, m), moves, v)
    ensures Leads(cfg, w, [m] + moves, v)
  {
    assert ([m] + moves)[1..] == moves;
  }

  /** Nobody gives up, stops the session or cancels anything. */
  predicate Orderly(m: Move) {
    && !(m.Talking? && m.talk.GiveUp?) && !m.Calling? && !m.StreamClose?
    && !(m.ActorMove? && !m.step.SComplete?)
  }

  predicate AllOrderly(moves: seq<Move>) { forall i :: 0 <= i < |moves| ==> Orderly(moves[i]) }

  predicate Lively(a: ActorState) { a.shutdown.None? && !a.exited }

  /** How far the outstanding event is from its release. */
  ghost function Distance(w: World): nat {
    if w.gate.inFlight == 0 then 0
    else if Serving(w).Some? then HandlerDistance(w.actor.pending.Some?, Serving(w).value)
    else if w.gate.nextEventID !in w.gate.pendingEvents then 1
    else PendingDistance(w.gate.pendingEvents[w.gate.nextEventID], w.gate.nextEventID, w.loads)
  }

  function HandlerDistance(building: bool, h: Handler): (d: nat)
    ensures d >= 6
  {
    match h
    case Reserved(_) => 11
    case Proposed(_, _, _) => 10
    case Waiting(_, _, _) => if building then 9 else 8
    case Returned(_, _, _, _, _) => 7
    case _ => 6
  }

  ghost function PendingDistance(p: PendingEvent, id: nat, loads: map<nat, Load>): (d: nat)
    ensures 1 <= d <= 5
  {
    if p.loadRequested then 1 else if !p.finalized then 5 else LoadDistance(id, p.generation, loads)
  }

  ghost function LoadDistance(id: nat, generation: nat, loads: map<nat, Load>): (d: nat)
    ensures 2 <= d <= 4
  {
    if exists t :: t in loads && Fetched(loads[t], id, generation) then 2
    else if exists t :: t in loads && loads[t] == Validated(id, generation) then 3
    else 4
  }

  predicate Fetched(l: Load, id: nat, generation: nat) { l.Framed? && l.event == id && l.generation == generation }

  // ----- one move nearer

  ghost predicate Nearer(w: World, v: World) { Lively(v.actor) && Distance(v) < Distance(w) }

  ghost predicate Steps(cfg: Config, w: World, m: Move) {
    Possible(w, m) && Nearer(w, Moved(cfg, w, m)) && Orderly(m)
  }

  predicate AwaitsLoad(g: Gate) {
    && g.nextEventID in g.pendingEvents
    && g.pendingEvents[g.nextEventID].finalized && !g.pendingEvents[g.nextEventID].loadRequested
  }

  /** The handler being served moved on, and only the actor may have changed besides. */
  lemma ServedNearer(w: World, v: World)
    requires Serving(w).Some? && w.gate.inFlight == 1 && Lively(v.actor)
    requires v.gate == w.gate && w.gate.nextEventID in v.handlers
    requires HandlerDistance(v.actor.pending.Some?, v.handlers[w.gate.nextEventID])
             < HandlerDistance(w.actor.pending.Some?, Serving(w).value)
    ensures Nearer(w, v)
  {
    assert Serving(v) == Some(v.handlers[w.gate.nextEventID]);
  }

  lemma ServedInFlight(cfg: Config, w: World)
    requires Good(cfg, w) && Serving(w).Some?
    ensures w.gate.inFlight == 1 && w.gate.eventCancels == {w.gate.nextEventID}
    ensures HandlerOk(cfg.env, w.actor, w.gate.active, w.gate.nextEventID, Serving(w).value)
    ensures !Serving(w).value.Resolved?
  {
  }

  lemma ActorStaysLively(a: ActorState, c: ApplyCommand)
    requires Lively(a)
    ensures Lively(Receive(a, c))
  {
  }

  lemma TalkNearer(cfg: Config, w: World, talk: Talk)
    requires Lively(w.actor) && Serving(w).Some? && w.gate.inFlight == 1
    requires CanTalk(w, talk) && talk.id == w.gate.nextEventID && !talk.GiveUp?
    requires talk.Submit? || w.actor.pending.None?
    ensures Nearer(w, Talked(cfg, w, talk))
  {
    if talk.Submit? { ActorStaysLively(w.actor, CommandOf(talk.id, Serving(w).value.proposal)); }
    ServedNearer(w, Talked(cfg, w, talk));
  }

  lemma TalkSteps(cfg: Config, w: World) returns (m: Move)
    requires Good(cfg, w) && Lively(w.actor) && Serving(w).Some?
    requires var h := Serving(w).value; h.Reserved? || h.Proposed? || (h.Waiting? && w.actor.pending.None?)
    ensures Steps(cfg, w, m)
  {
    var id, h := w.gate.nextEventID, Serving(w).value;
    ServedInFlight(cfg, w);
    var talk := if h.Reserved? then ReadCurrent(id, None) else if h.Proposed? then Submit(id) else Collect(id);
    TalkNearer(cfg, w, talk);
    m := Talking(talk);
  }

  lemma SettleNearer(w: World, settle: Settle)
    requires Lively(w.actor) && Serving(w).Some? && w.gate.inFlight == 1 && w.gate.eventCancels == {w.gate.nextEventID}
    requires CanSettle(w, settle) && settle.id == w.gate.nextEventID && !settle.BaseUpdate?
    ensures Nearer(w, Settled(w, settle))
  {
    if settle.Screen? {
      ServedNearer(w, Settled(w, settle));
    } else {
      assert w.gate.eventCancels - {settle.id} == {};
      assert Settled(w, settle).gate.eventCancels == {};
    }
  }

  lemma SettleSteps(cfg: Config, w: World) returns (m: Move)
    requires Good(cfg, w) && Lively(w.actor) && Serving(w).Some?
    requires var h := Serving(w).value; h.Returned? || h.Checked? || h.Erred?
    ensures Steps(cfg, w, m)
  {
    ServedInFlight(cfg, w);
    var settle := if Serving(w).value.Returned? then Screen(w.gate.nextEventID) else Resolution(w.gate.nextEventID);
    SettleNearer(w, settle);
    m := Settling(settle);
  }

  lemma CompleteSettles(a: ActorState, id: nat, outcome: BuildOutcome)
    requires Inv(a) && a.replacement.None? && id in a.builds && Lively(a)
    ensures Complete(a, id, outcome).pending.None? && Lively(Complete(a, id, outcome))
  {
    CompleteShape(a, id, outcome);
  }

  lemma BuildSteps(cfg: Config, w: World, outcome: BuildOutcome)
    requires Good(cfg, w) && Lively(w.actor) && w.actor.pending.Some?
    ensures Steps(cfg, w, ActorMove(SComplete(w.actor.pending.value.id, outcome)))
  {
    assert Serving(w).Some? && Serving(w).value.Waiting?;
    BuildNearer(w, w.actor.pending.value.id, outcome);
  }

  lemma BuildNearer(w: World, id: nat, outcome: BuildOutcome)
    requires Inv(w.actor) && w.actor.replacement.None? && Lively(w.actor) && w.gate.inFlight == 1
    requires w.actor.pending.Some? && w.actor.pending.value.id == id
    requires Serving(w).Some? && Serving(w).value.Waiting?
    ensures Enabled(w.actor, SComplete(id, outcome)) && Nearer(w, MoveActor(w, SComplete(id, outcome)))
  {
    CompleteSettles(w.actor, id, outcome);
    assert Serving(MoveActor(w, SComplete(id, outcome))) == Serving(w);
  }

  lemma CallbackNearer(w: World, v: World)
    requires Accounted(w.gate) && w.gate.inFlight == 1 && w.gate.eventCancels == {} && !AwaitsLoad(w.gate)
    requires Lively(w.actor) && v.actor == w.actor
    requires var id := w.gate.nextEventID;
             v.gate == if Unapplied(w.gate.pendingEvents, id) then FinalizeEvent(w.gate, id)
                 else FinalizeLoad(w.gate, id)
    ensures Nearer(w, v)
  {
    assert Serving(w).None? && Serving(v).None?;
  }

  lemma CallbackSteps(cfg: Config, w: World) returns (m: Move)
    requires Good(cfg, w) && Lively(w.actor) && w.gate.inFlight == 1 && Serving(w).None? && !AwaitsLoad(w.gate)
    ensures Steps(cfg, w, m)
  {
    var id := w.gate.nextEventID;
    m := if Unapplied(w.gate.pendingEvents, id) then Acknowledging(id) else Loading(LoadFinalization(id));
    CallbackNearer(w, Moved(cfg, w, m));
  }

  /** Some thread no load runs on. */
  ghost function FreeThread(loads: map<nat, Load>): (t: nat)
    ensures t !in loads
  {
    MaxThread(loads.Keys) + 1
  }

  ghost function MaxThread(threads: set<nat>): (max: nat)
    ensures forall t :: t in threads ==> t <= max
  {
    if threads == {} then 0
    else
      var t :| t in threads;
      var rest := MaxThread(threads - {t});
      assert forall u :: u in threads && u != t ==> u in threads - {t};
      if t > rest then t else rest
  }

  /** Adding a load in some stage brings the event that near. */
  lemma LoadAdded(id: nat, generation: nat, loads: map<nat, Load>, t: nat, l: Load)
    ensures Fetched(l, id, generation) ==> LoadDistance(id, generation, loads[t := l]) == 2
    ensures l == Validated(id, generation) ==> LoadDistance(id, generation, loads[t := l]) <= 3
  {
    assert loads[t := l][t] == l;
  }

  lemma LoadsNearer(w: World, loads: map<nat, Load>)
    requires Lively(w.actor) && w.gate.inFlight == 1 && w.gate.eventCancels == {} && AwaitsLoad(w.gate)
    requires var id := w.gate.nextEventID; var generation := w.gate.pendingEvents[id].generation;
             LoadDistance(id, generation, loads) < LoadDistance(id, generation, w.loads)
    ensures Nearer(w, w.(loads := loads))
  {
    assert Serving(w).None? && Serving(w.(loads := loads)).None?;
  }

  /** The next move of the load the applied event waits for: validate, frame, start. */
  lemma NextLoad(w: World) returns (m: LoadMove)
    requires Lively(w.actor) && w.gate.inFlight == 1 && w.gate.eventCancels == {} && AwaitsLoad(w.gate)
    requires var p := w.gate.pendingEvents[w.gate.nextEventID];
             && p.generation == w.actor.current.generation
             && CheckLoad(w.gate, w.gate.nextEventID, p.generation).LoadReady?
    ensures CanLoad(w, m) && Nearer(w, LoadMoved(w, m))
  {
    var id, generation := w.gate.nextEventID, w.actor.current.generation;
    var distance := LoadDistance(id, generation, w.loads);
    if distance == 2 {
      var t :| t in w.loads && Fetched(w.loads[t], id, generation);
      m := LoadStart(t);
      assert Serving(w).None? && LoadMoved(w, m).gate == BeginLoad(w.gate, id);
    } else if distance == 3 {
      var t :| t in w.loads && w.loads[t] == Validated(id, generation);
      m := LoadRead(t);
      var loads := LoadMoved(w, m).loads;
      LoadAdded(id, generation, w.loads, t, loads[t]);
      LoadsNearer(w, loads);
    } else {
      var t := FreeThread(w.loads);
      m := LoadValidation(t, id, generation);
      LoadAdded(id, generation, w.loads, t, Validated(id, generation));
      LoadsNearer(w, w.loads[t := Validated(id, generation)]);
    }
  }

  lemma LoadSteps(cfg: Config, w: World) returns (m: Move)
    requires Good(cfg, w) && Lively(w.actor) && w.gate.inFlight == 1 && Serving(w).None? && AwaitsLoad(w.gate)
    ensures Steps(cfg, w, m)
  {
    var load := NextLoad(w);
    m := Loading(load);
  }

  lemma SomeStep(cfg: Config, w: World, outcome: BuildOutcome) returns (m: Move)
    requires Sane(cfg) && Good(cfg, w) && Lively(w.actor) && w.gate.inFlight == 1
    ensures Steps(cfg, w, m) && Good(cfg, Moved(cfg, w, m))
  {
    if Serving(w).None? {
      if AwaitsLoad(w.gate) { m := LoadSteps(cfg, w); } else { m := CallbackSteps(cfg, w); }
    } else if w.actor.pending.Some? {
      BuildSteps(cfg, w, outcome);
      m := ActorMove(SComplete(w.actor.pending.value.id, outcome));
    } else {
      ServedInFlight(cfg, w);
      var h := Serving(w).value;
      if h.Reserved? || h.Proposed? || h.Waiting? { m := TalkSteps(cfg, w); } else { m := SettleSteps(cfg, w); }
    }
    GoodKept(cfg, w, m);
  }

  // ----- every reservation can be released

  /** From every world with the invariant and a live actor, whatever the pending build comes to, orderly moves lead to a
      world without an outstanding event. */
  lemma {:induction false} Released(cfg: Config, w: World, outcome: BuildOutcome) returns (moves: seq<Move>, v: World)
    requires Sane(cfg) && Good(cfg, w) && Lively(w.actor)
    ensures Leads(cfg, w, moves, v) && AllOrderly(moves) && v.gate.inFlight == 0
    decreases Distance(w)
  {
    if w.gate.inFlight == 0 {
      moves, v := [], w;
    } else {
      var m := SomeStep(cfg, w, outcome);
      moves, v := Released(cfg, Moved(cfg, w, m), outcome);
      LeadsOn(cfg, w, m, moves, v);
      moves := [m] + moves;
    }
  }

  /** Every run that ends with a live actor can be continued, without anyone giving up, stopping or cancelling and
      whatever the pending build comes to, to a world in which no event is outstanding. */
  lemma ReservationsCanBeReleased(cfg: Config, worlds: seq<World>, moves: seq<Move>, outcome: BuildOutcome)
    returns (more: seq<Move>, v: World)
    requires Sane(cfg) && Run(cfg, worlds, moves) && Lively(worlds[|moves|].actor)
    ensures Leads(cfg, worlds[|moves|], more, v) && AllOrderly(more) && v.gate.inFlight == 0
  {
    ReachableGood(cfg, worlds, moves, |moves|);
    more, v := Released(cfg, worlds[|moves|], outcome);
  }
}
