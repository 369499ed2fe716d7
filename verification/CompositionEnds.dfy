/** How events are answered and sessions end: what fzf is left with, and that nothing changes after the last word. */
module CompositionEnds {
  import opened Basics
  import opened Protocol
  import opened Actor
  import opened Gate
  import opened Events
  import opened Render
  import opened Composition
  import opened CompositionInv
  import opened CompositionRuns
  import opened CompositionOff
  import EventOutcomes
  import Codec

  // ----- the session is over

  predicate Final(e: Effect) { e.accept || e.abort }

  /** The session has ended: no event can be reserved, none is being handled, no load is awaited and no commit runs. */
  ghost predicate Over(w: World) {
    && w.gate.terminal && w.gate.eventCancels == {} && !InProgress(w.commit)
    && forall id :: id in w.gate.pendingEvents ==> w.gate.pendingEvents[id].generation == 0
  }

  /** What is fixed once the session has ended. */
  predicate Unchanged(w: World, v: World) {
    && v.actor.current == w.actor.current && v.gate.nextEventID == w.gate.nextEventID
    && v.served == w.served && v.enriched == w.enriched && v.stream.appended == w.stream.appended
    && v.outbox == w.outbox
  }

  ghost predicate StillOver(w: World, v: World) { Over(v) && Unchanged(w, v) }

  lemma OverCommits(cfg: Config, w: World, m: Move)
    requires Shape(w) && Over(w) && Possible(w, m) && Commits(m)
    ensures StillOver(w, Moved(cfg, w, m))
  {
    assert m.Quitting? && m.quit.CommitSkip?;
  }

  lemma OverHandlers(w: World, m: Move)
    requires Shape(w) && Over(w) && Possible(w, m) && (m.Talking? || m.Settling?)
    ensures m.Settling? && m.settle.BaseUpdate? && StillOver(w, Settled(w, m.settle))
  {
  }

  lemma OverLoads(w: World, m: LoadMove)
    requires Shape(w) && Over(w) && CanLoad(w, m)
    ensures StillOver(w, LoadMoved(w, m))
  {
  }

  lemma OverCalls(w: World, m: Call)
    requires Over(w) && CanCall(w, m)
    ensures StillOver(w, Called(w, m))
  {
  }

  lemma OverActor(cfg: Config, w: World, step: Step)
    requires ActorOk(cfg, w) && Over(w) && Internal(step) && Enabled(w.actor, step)
    ensures StillOver(w, MoveActor(w, step))
  {
    OtherMovesUnseen(w.actor, step);
  }

  lemma OverStays(cfg: Config, w: World, m: Move)
    requires Shape(w) && ActorOk(cfg, w) && Over(w) && Possible(w, m)
    ensures !m.Reserving? && StillOver(w, Moved(cfg, w, m))
  {
    if Commits(m) {
      OverCommits(cfg, w, m);
    } else if m.Talking? || m.Settling? {
      OverHandlers(w, m);
    } else {
      match m
      case Loading(load) => OverLoads(w, load);
      case Calling(call) => OverCalls(w, call);
      case ActorMove(step) => OverActor(cfg, w, step);
      case _ =>
    }
  }

  /** The event whose effect accepts or aborts is the last one, and the session has ended. */
  ghost predicate LastWord(w: World) {
    forall id :: id in w.outbox && Final(w.outbox[id]) ==> Over(w) && id == w.gate.nextEventID
  }

  /** The handler of event id hands its effect out. */
  predicate Sends(w: World, m: Move, id: nat) {
    m == Settling(Resolution(id)) && HandlerAt(w, id) && w.handlers[id].Checked?
  }

  predicate Shows(m: Move) { m.Settling? || m.Acknowledging? || m.Loading? || m.Calling? }

  lemma TalkAside(cfg: Config, w: World, m: Talk)
    requires CanTalk(w, m)
    ensures Aside(w, Talked(cfg, w, m))
  {
  }

  lemma MoveAside(cfg: Config, w: World, m: Move)
    requires Possible(w, m) && !Shows(m)
    ensures Aside(w, Moved(cfg, w, m))
  {
    if Commits(m) {
      CommitGuarded(cfg, w, m);
    } else if m.Talking? {
      TalkAside(cfg, w, m.talk);
    }
  }

  lemma OutboxGrows(cfg: Config, w: World, m: Move, id: nat)
    requires Possible(w, m) && id in Moved(cfg, w, m).outbox
    ensures var e := Moved(cfg, w, m).outbox[id];
            (id in w.outbox && e == w.outbox[id]) || (Sends(w, m, id) && e == w.handlers[id].effect)
  {
    if !Shows(m) { MoveAside(cfg, w, m); }
  }

  lemma FinalEffect(env: Env, a: ActorState, active: bool, id: nat, h: Handler)
    requires h.Checked? && HandlerOk(env, a, active, id, h) && Final(h.effect)
    ensures h.effect.reload == 0 && h.effect.restore == 0
  {
  }

  /** Handing out an effect that accepts or aborts ends the session. */
  lemma SendingEnds(w: World, id: nat)
    requires Shape(w) && HandlerAt(w, id) && w.handlers[id].Checked? && Final(w.handlers[id].effect)
    requires w.handlers[id].effect.reload == 0 && w.handlers[id].effect.restore == 0
    ensures var v := ResolveHandler(w, id, w.handlers[id]); Over(v) && id == v.gate.nextEventID
  {
    var h := w.handlers[id];
    ResolveSummary(w.gate, id, h.event.opcode, h.snapshot, h.effect);
  }

  lemma LastWordKept(cfg: Config, w: World, m: Move)
    requires Good(cfg, w) && LastWord(w) && Possible(w, m)
    ensures LastWord(Moved(cfg, w, m))
  {
    var v := Moved(cfg, w, m);
    forall id | id in v.outbox && Final(v.outbox[id]) ensures Over(v) && id == v.gate.nextEventID {
      OutboxGrows(cfg, w, m, id);
      if Sends(w, m, id) && v.outbox[id] == w.handlers[id].effect {
        assert Serving(w) == Some(w.handlers[id]);
        FinalEffect(cfg.env, w.actor, w.gate.active, id, w.handlers[id]);
        SendingEnds(w, id);
      } else {
        OverStays(cfg, w, m);
      }
    }
  }

  lemma OverKept(cfg: Config, w: World, u: World, m: Move)
    requires Good(cfg, u) && StillOver(w, u) && Possible(u, m)
    ensures !m.Reserving? && StillOver(w, Moved(cfg, u, m))
  {
    OverStays(cfg, u, m);
    StillOverTrans(w, u, Moved(cfg, u, m));
  }

  lemma StillOverTrans(w: World, u: World, v: World)
    requires StillOver(w, u) && StillOver(u, v)
    ensures StillOver(w, v)
  {
  }

  lemma OverThroughout(cfg: Config, worlds: seq<World>, moves: seq<Move>, i: nat, j: nat)
    requires Sane(cfg) && Run(cfg, worlds, moves) && i <= j < |worlds| && Over(worlds[i])
    ensures StillOver(worlds[i], worlds[j])
  {
    var start := worlds[i];
    var inv := (w: World) => StillOver(start, w);
    forall w, m | Good(cfg, w) && inv(w) && Possible(w, m) ensures inv(Moved(cfg, w, m)) { OverKept(cfg, start, w, m); }
    Throughout(cfg, worlds, moves, i, j, inv);
  }

  // ----- an answer is delivered

  /** In a live session an event the actor accepted is answered with its effect, screened by whether publication is
      still on, and fzf's acknowledgement of it is the performance of that effect. */
  lemma AnswerIsDelivered(cfg: Config, w: World, id: nat)
    requires Shape(w) && HandlerAt(w, id) && w.handlers[id].Waiting? && !w.gate.terminal
    requires Answers(w.actor, id) != [] && Answers(w.actor, id)[0].Done?
    ensures var event := w.handlers[id].event;
            var e := Screened(w.gate.active, event.opcode, Answers(w.actor, id)[0].effect);
            && CanTalk(w, Collect(id))
            && var w1 := Talked(cfg, w, Collect(id));
            && CanSettle(w1, Screen(id))
            && var w2 := Settled(w1, Screen(id));
            && CanSettle(w2, Resolution(id))
            && var w3 := Settled(w2, Resolution(id));
            && id in w3.outbox && w3.outbox[id] == e && Performs(w3, Acknowledging(id), id)
            && FinalizeHandled(cfg, w3, id).view == After(cfg.groups, w.view, e, id)
            && (CanSettle(w3, BaseUpdate(id)) <==> e.reload != 0)
  {
    var w2 := Settled(Talked(cfg, w, Collect(id)), Screen(id));
    assert w2.handlers[id].Checked? && w2 == w.(handlers := w2.handlers);
    CheckedIsSent(cfg, w2, id);
  }

  lemma CheckedIsSent(cfg: Config, w: World, id: nat)
    requires HandlerAt(w, id) && w.handlers[id].Checked? && id in w.gate.eventCancels && !w.gate.terminal
    ensures var v := Settled(w, Resolution(id));
            && id in v.outbox && v.outbox[id] == w.handlers[id].effect && Performs(v, Acknowledging(id), id)
            && FinalizeHandled(cfg, v, id).view == After(cfg.groups, w.view, w.handlers[id].effect, id)
            && (CanSettle(v, BaseUpdate(id)) <==> w.handlers[id].effect.reload != 0)
  {
  }

  lemma NothingSent(cfg: Config, w: World, m: Move)
    requires Shape(w) && w.gate.terminal && w.gate.terminalErr != {} && Possible(w, m)
    ensures Moved(cfg, w, m).outbox == w.outbox
  {
    if !Shows(m) { MoveAside(cfg, w, m); }
  }

  /** After the coordinator has ended with an error no effect is handed out any more. */
  lemma NothingSentAfterFailure(cfg: Config, worlds: seq<World>, moves: seq<Move>, i: nat, j: nat)
    requires Sane(cfg) && Run(cfg, worlds, moves) && i <= j < |worlds|
    requires worlds[i].gate.terminal && worlds[i].gate.terminalErr != {}
    ensures worlds[j].outbox == worlds[i].outbox
  {
    var sent := worlds[i].outbox;
    var inv := (w: World) => w.gate.terminal && w.gate.terminalErr != {} && w.outbox == sent;
    forall w, m | Good(cfg, w) && inv(w) && Possible(w, m) ensures inv(Moved(cfg, w, m)) {
      NothingSent(cfg, w, m);
      MoveConfined(cfg, w, m);
    }
    Throughout(cfg, worlds, moves, i, j, inv);
  }

  /** An event fails with the reducer's error, its context's or the actor's; it then hands nothing out, changes neither
      snapshot nor view, and its reservation ends. */
  lemma FailureIsQuiet(cfg: Config, w: World, m: Talk, error: Error)
    requires Shape(w) && CanTalk(w, m)
    requires match m
             case ReadCurrent(id, _) => Reduce(cfg.env, w.actor.current, w.handlers[id].event) == Err(error)
             case GiveUp(_, e) => e == error
             case Collect(id) => Answers(w.actor, id)[0] == Failed(error)
             case Submit(_) => false
    ensures var w1 := Talked(cfg, w, m);
            && w1.handlers[m.id] == Erred(w.handlers[m.id].event, error) && CanSettle(w1, Resolution(m.id))
            && var w2 := Settled(w1, Resolution(m.id));
            && m.id !in w2.handlers && m.id !in w2.gate.pendingEvents && m.id !in w2.gate.eventCancels
            && w2.gate.inFlight == 0 && w2.actor == w.actor && w2.outbox == w.outbox && w2.view == w.view
  {
    var w1 := Talked(cfg, w, m);
    assert w1 == w.(handlers := w1.handlers) && w.gate.eventCancels == {m.id};
    assert w.gate.eventCancels - {m.id} == {};
  }

  // ----- the base generation

  /** A base update still owed by the newest event names the current generation. */
  predicate Owed(w: World) {
    HandlerAt(w, w.gate.nextEventID) && w.handlers[w.gate.nextEventID].Resolved? ==>
      w.handlers[w.gate.nextEventID].generation == w.actor.current.generation
  }

  lemma SettleOwed(cfg: Config, w: World, m: Settle)
    requires Good(cfg, w) && Owed(w) && CanSettle(w, m)
    ensures Owed(Settled(w, m))
  {
    if m.Resolution? && w.handlers[m.id].Checked? {
      assert Serving(w) == Some(w.handlers[m.id]);
      ResolveSummary(w.gate, m.id, w.handlers[m.id].event.opcode, w.handlers[m.id].snapshot, w.handlers[m.id].effect);
    }
  }

  lemma TalkResolves(cfg: Config, w: World, m: Talk, id: nat)
    requires CanTalk(w, m) && HandlerAt(Talked(cfg, w, m), id) && Talked(cfg, w, m).handlers[id].Resolved?
    ensures HandlerAt(w, id) && w.handlers[id] == Talked(cfg, w, m).handlers[id]
  {
  }

  lemma ResolvedBefore(cfg: Config, w: World, m: Move, id: nat)
    requires Possible(w, m) && !m.Settling? && HandlerAt(Moved(cfg, w, m), id)
             && Moved(cfg, w, m).handlers[id].Resolved?
    ensures HandlerAt(w, id) && w.handlers[id] == Moved(cfg, w, m).handlers[id]
  {
    if Commits(m) {
      CommitGuarded(cfg, w, m);
    } else if m.Talking? {
      TalkResolves(cfg, w, m.talk, id);
    } else if m.Loading? {
      LoadGuarded(w, m.load);
    } else if m.Calling? {
      CallGuarded(w, m.call);
    }
  }

  lemma CurrentRests(cfg: Config, w: World, m: Move)
    requires Good(cfg, w) && w.gate.eventCancels == {} && !w.commit.Cleared? && Possible(w, m)
    ensures Moved(cfg, w, m).actor.current == w.actor.current
  {
    MoveSerial(cfg, w, m);
  }

  lemma MoveOwed(cfg: Config, w: World, m: Move)
    requires Good(cfg, w) && Owed(w) && Possible(w, m)
    ensures Owed(Moved(cfg, w, m))
  {
    var v := Moved(cfg, w, m);
    if m.Settling? {
      SettleOwed(cfg, w, m.settle);
    } else if !m.Reserving? && HandlerAt(v, v.gate.nextEventID) && v.handlers[v.gate.nextEventID].Resolved? {
      MoveGuarded(cfg, w, m);
      ResolvedBefore(cfg, w, m, v.gate.nextEventID);
      NewestRests(w);
      CurrentRests(cfg, w, m);
    }
  }

  lemma NewestRests(w: World)
    requires Shape(w) && HandlerAt(w, w.gate.nextEventID) && w.handlers[w.gate.nextEventID].Resolved?
    ensures w.gate.eventCancels == {} && !w.commit.Cleared?
  {
  }

  // ----- how it ends

  /** fzf performs the effect of event id. */
  predicate Performs(w: World, m: Move, id: nat) {
    m == Acknowledging(id) && Unapplied(w.gate.pendingEvents, id) && id in w.outbox
  }

  lemma ViewChanges(cfg: Config, w: World, m: Move)
    requires Possible(w, m)
    ensures var v := Moved(cfg, w, m);
            v.view == if m.Acknowledging? && Performs(w, m, m.id) then After(cfg.groups, w.view, w.outbox[m.id], m.id)
                      else w.view
  {
    if !Shows(m) { MoveAside(cfg, w, m); }
  }

  lemma {:induction false} OutboxOrigin(cfg: Config, worlds: seq<World>, moves: seq<Move>, i: nat, id: nat)
    returns (h: nat)
    requires Run(cfg, worlds, moves) && i < |worlds| && id in worlds[i].outbox
    ensures h < i && Sends(worlds[h], moves[h], id) && worlds[h].handlers[id].effect == worlds[i].outbox[id]
  {
    OutboxGrows(cfg, worlds[i - 1], moves[i - 1], id);
    if Sends(worlds[i - 1], moves[i - 1], id) && worlds[i - 1].handlers[id].effect == worlds[i].outbox[id] {
      h := i - 1;
    } else {
      h := OutboxOrigin(cfg, worlds, moves, i - 1, id);
    }
  }

  /** The event that ends a session this way. */
  predicate Ends(h: Handler, ending: Ending)
    requires h.Checked?
  {
    match ending
    case Accepted => h.event.opcode == OpEnter && h.seen.state.mode != Add
    case Aborted => h.event.opcode == OpEscape && h.seen.state.mode == Normal
  }

  lemma EffectOfEvent(cfg: Config, worlds: seq<World>, moves: seq<Move>, h: nat, id: nat)
    requires Sane(cfg) && Run(cfg, worlds, moves) && h < |moves| && Sends(worlds[h], moves[h], id)
    ensures var hd := worlds[h].handlers[id];
            (hd.effect.accept ==> Ends(hd, Accepted)) && (hd.effect.abort ==> Ends(hd, Aborted))
  {
    ReachableGood(cfg, worlds, moves, h);
    ReachableOrigins(cfg, worlds, moves, h);
    var hd := worlds[h].handlers[id];
    assert Serving(worlds[h]) == Some(hd);
    var created :| hd.proposal == Submitted(cfg.env, hd.seen, Reduce(cfg.env, hd.seen, hd.event).value, created);
    EventOutcomes.OnlyEnterAccepts(cfg.env, hd.seen, hd.event, created);
  }

  /** At step h event id was answered with an effect, and at step k fzf performed it, which ended the session. */
  ghost predicate EndedBy(worlds: seq<World>, moves: seq<Move>, h: nat, k: nat, ending: Ending)
    requires h < k < |moves| && k < |worlds|
  {
    && moves[k].Acknowledging? && Performs(worlds[k], moves[k], moves[k].id)
    && Sends(worlds[h], moves[h], moves[k].id) && Ends(worlds[h].handlers[moves[k].id], ending)
  }

  lemma EndsHere(cfg: Config, worlds: seq<World>, moves: seq<Move>, k: nat)
    returns (h: nat)
    requires Sane(cfg) && Run(cfg, worlds, moves) && k < |moves|
    requires worlds[k].view.line.ended.None? && worlds[k + 1].view.line.ended.Some?
    ensures h < k && EndedBy(worlds, moves, h, k, worlds[k + 1].view.line.ended.value)
  {
    ViewChanges(cfg, worlds[k], moves[k]);
    h := OutboxOrigin(cfg, worlds, moves, k, moves[k].id);
    EffectOfEvent(cfg, worlds, moves, h, moves[k].id);
  }

  lemma EndingStays(cfg: Config, w: World, m: Move)
    requires Possible(w, m) && w.view.line.ended.Some?
    ensures Moved(cfg, w, m).view.line.ended == w.view.line.ended
  {
    ViewChanges(cfg, w, m);
  }

  /** A session ends accepted only because an Enter outside Add mode was handled, answered and performed by fzf, and
      aborted only because of an Escape in Normal mode. */
  lemma {:induction false} EndsByEvent(cfg: Config, worlds: seq<World>, moves: seq<Move>, i: nat)
    returns (h: nat, k: nat)
    requires Sane(cfg) && Run(cfg, worlds, moves) && i < |worlds| && worlds[i].view.line.ended.Some?
    ensures h < k < i && EndedBy(worlds, moves, h, k, worlds[i].view.line.ended.value)
  {
    if worlds[i - 1].view.line.ended.Some? {
      EndingStays(cfg, worlds[i - 1], moves[i - 1]);
      h, k := EndsByEvent(cfg, worlds, moves, i - 1);
    } else {
      k := i - 1;
      h := EndsHere(cfg, worlds, moves, k);
    }
  }

  // ----- what fzf lists

  /** The generation whose list an effect asks for, or 0. */
  function Asked(e: Effect): nat { if e.reload != 0 then e.reload else e.restore }

  ghost predicate ServedAs(served: seq<Served>, event: nat, generation: nat) {
    exists i :: 0 <= i < |served| && served[i].event == event && served[i].generation == generation
  }

  /** A load reads the current records exactly when its generation is current, and is refused otherwise; once read, it
      is served exactly when its event waits for it, and in either case done with. */
  lemma LoadDecides(w: World, m: LoadMove)
    requires CanLoad(w, m) && (m.LoadRead? || m.LoadStart?)
    ensures var v, l := LoadMoved(w, m), w.loads[m.thread];
            && (m.LoadRead? ==>
                  && (m.thread in v.loads <==> w.actor.shutdown.None? && w.actor.current.generation == l.generation)
                  && (m.thread in v.loads ==>
                        v.loads[m.thread] == Framed(l.event, l.generation, Codec.Frame(w.actor.current.records))))
            && (m.LoadStart? ==>
                  && m.thread !in v.loads
                  && (v.served != w.served <==> CheckLoad(w.gate, l.event, l.generation).LoadReady?))
  {
  }

  /** A reservation waits for what its effect asked for; a load it has requested was served; and a list fzf switched to
      was served under that event's ID, or the event still waits for it. */
  ghost predicate Supplied(w: World) {
    && AwaitedSupplied(w.gate.pendingEvents, w.outbox, w.served)
    && (!w.gate.terminal ==> ListSupplied(w.gate.pendingEvents, w.view.listing, w.served))
  }

  ghost predicate AwaitedSupplied(pending: map<nat, PendingEvent>, outbox: map<nat, Effect>, served: seq<Served>) {
    forall id :: id in pending ==>
      && id in outbox && pending[id].generation == Asked(outbox[id])
      && (pending[id].loadRequested ==> ServedAs(served, id, pending[id].generation))
  }

  ghost predicate ListSupplied(pending: map<nat, PendingEvent>, listing: Listing, served: seq<Served>) {
    listing.Loaded? ==>
      || ServedAs(served, listing.event, listing.generation)
      || (&& listing.event in pending && pending[listing.event].finalized
          && pending[listing.event].generation == listing.generation)
  }

  lemma SettleSupplied(w: World, m: Settle)
    requires Shape(w) && Supplied(w) && CanSettle(w, m)
    ensures Supplied(Settled(w, m))
  {
    var h := w.handlers[m.id];
    if m.Resolution? && h.Checked? {
      ResolveSummary(w.gate, m.id, h.event.opcode, h.snapshot, h.effect);
    }
  }

  /** The list an effect leaves behind. */
  function ListAfter(listing: Listing, e: Effect, id: nat): Listing {
    if e.invalidPath then Emptied else if Asked(e) != 0 then Loaded(Asked(e), id) else listing
  }

  lemma AfterLists(g: Groups, v: View, e: Effect, id: nat)
    requires Renderable(e)
    ensures After(g, v, e, id).listing == ListAfter(v.listing, e, id)
  {
  }

  /** The reservations once the only one, id, has been acknowledged for the first time. */
  function Applied(pending: map<nat, PendingEvent>, id: nat): map<nat, PendingEvent>
    requires id in pending
  {
    if pending[id].generation == 0 then pending - {id}
        else pending[id := pending[id].(finalized := true, applied := true)]
  }

  lemma AppliedSupplied(pending: map<nat, PendingEvent>, id: nat, outbox: map<nat, Effect>, listing: Listing,
                        served: seq<Served>)
    requires pending.Keys == {id} && !pending[id].finalized && AwaitedSupplied(pending, outbox, served)
    ensures AwaitedSupplied(Applied(pending, id), outbox, served)
    ensures ListSupplied(pending, listing, served) ==>
              ListSupplied(Applied(pending, id), ListAfter(listing, outbox[id], id), served)
  {
  }

  lemma AcknowledgeSupplied(cfg: Config, w: World, id: nat)
    requires Accounted(w.gate) && OutboxOk(w.outbox, w.gate.nextEventID, w.gate.eventCancels) && Supplied(w)
    ensures Supplied(FinalizeHandled(cfg, w, id))
  {
    if Unapplied(w.gate.pendingEvents, id) {
      assert w.gate.pendingEvents.Keys == {id};
      AfterLists(cfg.groups, w.view, w.outbox[id], id);
      AppliedSupplied(w.gate.pendingEvents, id, w.outbox, w.view.listing, w.served);
      assert FinalizeEvent(w.gate, id).pendingEvents == Applied(w.gate.pendingEvents, id);
    } else {
      assert FinalizeHandled(cfg, w, id) == w;
    }
  }

  lemma LoadSupplied(w: World, m: LoadMove)
    requires Supplied(w) && CanLoad(w, m)
    ensures Supplied(LoadMoved(w, m))
  {
    if m.LoadStart? {
      var l := w.loads[m.thread];
      var x := Served(l.event, l.generation, l.data);
      forall event, generation | ServedAs(w.served, event, generation)
        ensures ServedAs(w.served + [x], event, generation)
      {
        var i :| 0 <= i < |w.served| && w.served[i].event == event && w.served[i].generation == generation;
        assert (w.served + [x])[i] == w.served[i];
      }
      assert (w.served + [x])[|w.served|] == x;
    }
  }

  lemma CallSupplied(w: World, m: Call)
    requires Supplied(w) && CanCall(w, m)
    ensures Supplied(Called(w, m))
  {
  }

  lemma AsideSupplied(w: World, v: World)
    requires Supplied(w) && Aside(w, v)
    ensures Supplied(v)
  {
  }

  lemma MoveSupplied(cfg: Config, w: World, m: Move)
    requires Good(cfg, w) && Supplied(w) && Possible(w, m)
    ensures Supplied(Moved(cfg, w, m))
  {
    match m
    case Settling(settle) => SettleSupplied(w, settle);
    case Acknowledging(id) => AcknowledgeSupplied(cfg, w, id);
    case Loading(load) => LoadSupplied(w, load);
    case Calling(call) => CallSupplied(w, call);
    case _ =>
      MoveAside(cfg, w, m);
      AsideSupplied(w, Moved(cfg, w, m));
  }

  // ----- in every run

  ghost predicate Regular(cfg: Config, w: World) { Good(cfg, w) && LastWord(w) && Owed(w) && Supplied(w) }

  lemma RegularKept(cfg: Config, w: World, m: Move)
    requires Regular(cfg, w) && Possible(w, m)
    ensures LastWord(Moved(cfg, w, m)) && Owed(Moved(cfg, w, m)) && Supplied(Moved(cfg, w, m))
  {
    LastWordKept(cfg, w, m);
    MoveOwed(cfg, w, m);
    MoveSupplied(cfg, w, m);
  }

  lemma Reachable(cfg: Config, worlds: seq<World>, moves: seq<Move>, i: nat)
    requires Sane(cfg) && Run(cfg, worlds, moves) && i < |worlds|
    ensures Regular(cfg, worlds[i])
  {
    var inv := (w: World) => LastWord(w) && Owed(w) && Supplied(w);
    forall w, m | Good(cfg, w) && inv(w) && Possible(w, m) ensures inv(Moved(cfg, w, m)) { RegularKept(cfg, w, m); }
    Throughout(cfg, worlds, moves, 0, i, inv);
    ReachableGood(cfg, worlds, moves, i);
  }

  /** Once an accepting or aborting effect has been handed out, the session is over: its event is the last, no event is
      ever reserved again, and snapshot, served loads, published enrichment and stream stay as they are. */
  lemma OverForGood(cfg: Config, worlds: seq<World>, moves: seq<Move>, i: nat, j: nat, id: nat)
    requires Sane(cfg) && Run(cfg, worlds, moves) && i <= j < |worlds|
    requires id in worlds[i].outbox && Final(worlds[i].outbox[id])
    ensures Over(worlds[j]) && worlds[j].gate.nextEventID == id && Unchanged(worlds[i], worlds[j])
    ensures j < |moves| ==> !moves[j].Reserving?
  {
    Reachable(cfg, worlds, moves, i);
    OverThroughout(cfg, worlds, moves, i, j);
  }

  /** The base generation is the current one in an activated session that has not navigated, but for the moment between
      a publication and the end of its commit; and the update owed after a navigation makes it the current one again,
      unless a later event has been reserved meanwhile. */
  lemma BaseFollows(cfg: Config, worlds: seq<World>, moves: seq<Move>, i: nat)
    requires Sane(cfg) && Run(cfg, worlds, moves) && i < |worlds|
    ensures var w := worlds[i];
            w.gate.activated && !w.navigated && !w.commit.Published? && !w.commit.Ending? ==>
              w.gate.baseGeneration == w.actor.current.generation
    ensures i < |moves| && moves[i] == Settling(BaseUpdate(worlds[i].gate.nextEventID)) ==>
              worlds[i + 1].gate.baseGeneration == worlds[i + 1].actor.current.generation
  {
    Reachable(cfg, worlds, moves, i);
  }

  /** Whenever no event is outstanding in a live session and fzf has left the initial stream for a loaded list, that
      list was served to the very event that asked for it, and is the framing of the session's current records. */
  lemma ListIsCurrentRecords(cfg: Config, worlds: seq<World>, moves: seq<Move>, i: nat)
    requires Sane(cfg) && Run(cfg, worlds, moves) && i < |worlds| && worlds[i].view.listing.Loaded?
    requires !worlds[i].gate.terminal && worlds[i].gate.inFlight == 0
    ensures var w := worlds[i];
            exists k :: 0 <= k < |w.served| && w.served[k].event == w.view.listing.event
                        && w.served[k].generation == w.actor.current.generation
                        && w.served[k].data == Codec.Frame(w.actor.current.records)
  {
    Reachable(cfg, worlds, moves, i);
    var w := worlds[i];
    assert w.gate.pendingEvents == map[];
    var k :| 0 <= k < |w.served| && w.served[k].event == w.view.listing.event
             && w.served[k].generation == w.view.listing.generation;
    assert FaithfulTo(w.actor.published, w.served[k].generation, w.served[k].data);
  }
}
