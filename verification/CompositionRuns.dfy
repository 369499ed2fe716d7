/** What every run of the composition guarantees, under every interleaving with Stop, cancellation, shutdown and
    stream closure. */
module CompositionRuns {
  import opened Basics
  import opened Protocol
  import opened Actor
  import opened Gate
  import opened Events
  import opened Render
  import opened Composition
  import opened CompositionInv
  import Codec
  import Merge

  // ----- the publication window

  /** From a successful beginCommit until its publication or discard: no event is being handled or awaits its
      callback, the actor is between transitions, and its generation is the base generation. So the base snapshot is
      never seen as stale, and Enrich fails only by cancellation, shutdown or the generation limit. */
  lemma PublicationWindow(cfg: Config, worlds: seq<World>, moves: seq<Move>, i: nat)
    requires Sane(cfg) && Run(cfg, worlds, moves) && i < |worlds| && InWindow(worlds[i].commit)
    ensures Undisturbed(worlds[i])
  {
    ReachableGood(cfg, worlds, moves, i);
    var w := worlds[i];
    assert w.gate.committing;
    assert w.gate.baseGeneration == w.actor.current.generation;
    assert w.gate.eventCancels == {} && w.actor.pending.None?;
  }

  predicate Undisturbed(w: World)
    requires InWindow(w.commit)
  {
    && w.gate.inFlight == 0 && w.gate.eventCancels == {} && w.gate.pendingEvents == map[]
    && w.actor.pending.None? && w.actor.replacement.None?
    && w.gate.baseGeneration == w.actor.current.generation
    && (!w.commit.Begun? ==> w.commit.base == w.actor.current.generation)
    && (w.commit.BaseRead? ==> AbandonCommit(w, w.commit.base).gate == w.gate)
    && var error := EnrichError(w.actor, SourceCtx, w.actor.current.generation);
       error.Some? ==> error.value in [Closed, Cause(SourceCtx), Cause(SessionCtx), GenerationLimit]
  }

  // ----- stream and snapshot

  /** Between publications, the bytes ever fed to fzf and the enriched generation go together: the admitted frames have
      been appended exactly when an enrichment was published, and then as a generation holding the merged records. When
      zoxide has nothing new, nothing is ever enriched and nothing appended. */
  lemma PublishedIffAppended(cfg: Config, worlds: seq<World>, moves: seq<Move>, i: nat)
    requires Sane(cfg) && Run(cfg, worlds, moves) && i < |worlds| && !worlds[i].stream.held
    ensures var w := worlds[i];
            var before, added := Codec.Frame(cfg.base), Codec.Frame(AllAdmitted(cfg));
            && (AllAdmitted(cfg) == [] ==> w.enriched.None? && w.stream.appended == before)
            && (AllAdmitted(cfg) != [] ==>
                  && (w.enriched.Some? <==> w.stream.appended == before + added)
                  && (w.enriched.None? <==> w.stream.appended == before))
            && (w.enriched.Some? ==> w.enriched.value in w.actor.published
                                     && w.actor.published[w.enriched.value] == AllMerged(cfg))
  {
    ReachableGood(cfg, worlds, moves, i);
    if AllAdmitted(cfg) != [] { FrameGrows(AllAdmitted(cfg)); }
  }

  lemma FrameGrows(records: seq<Record>)
    requires records != []
    ensures |Codec.Frame(records)| > 0
  {
    var lines := Codec.Lines(records);
    assert lines != [] && Codec.FrameLines(lines) == lines[0] + [NUL] + Codec.FrameLines(lines[1..]);
  }

  /** Until the first navigation is published, what fzf was fed is the framing of the actor's current records, unless an
      enrichment was published over a listing with two candidates of the same target. */
  lemma StreamAgreesWithSnapshot(cfg: Config, worlds: seq<World>, moves: seq<Move>, i: nat)
    requires Sane(cfg) && Run(cfg, worlds, moves) && i < |worlds| && !worlds[i].stream.held && !worlds[i].navigated
    requires Codec.AllFree(Codec.Lines(cfg.base)) && Codec.AllFree(Codec.Lines(cfg.source))
    ensures worlds[i].stream.appended == Codec.Frame(worlds[i].actor.current.records) <==>
            worlds[i].enriched.None? || Merge.DistinctTargets(cfg.clean, cfg.base)
  {
    ReachableGood(cfg, worlds, moves, i);
    Merge.AppendedFramesAgree(cfg.clean, cfg.base, cfg.source);
  }

  // ----- one move at a time

  /** Facts about the coordinator that only ever go one way. */
  predicate Onward(w: World, v: World) {
    && (v.gate.active ==> w.gate.active)
    && (w.gate.terminal ==> v.gate.terminal)
    && w.gate.nextEventID <= v.gate.nextEventID
    && w.served <= v.served
    && (w.navigated ==> v.navigated)
    && Lasting(w.gate, v.gate)
  }

  predicate Carries(h: Handler) { h.Proposed? || h.Waiting? || h.Returned? || h.Checked? }

  /** Every proposal in flight afterwards was in flight before, for the same event and snapshot. */
  ghost predicate CarriedOver(before: map<nat, Handler>, after: map<nat, Handler>) {
    forall id :: id in after && Carries(after[id]) ==>
      && id in before && Carries(before[id])
      && after[id].event == before[id].event && after[id].seen == before[id].seen
      && after[id].proposal == before[id].proposal
  }

  predicate ServesLoad(m: Move) { m.Loading? && m.load.LoadStart? }

  predicate Submits(m: Move) { m.Talking? && m.talk.Submit? }

  predicate Reads(m: Move) { m.Talking? && m.talk.ReadCurrent? }

  /** What a move leaves alone. */
  ghost predicate Confined(w: World, m: Move, v: World) {
    && Onward(w, v)
    && (!ServesLoad(m) ==> v.served == w.served)
    && (!Submits(m) && !m.Enriching? && !m.ActorMove? ==> v.actor == w.actor)
    && (!Reads(m) ==> CarriedOver(w.handlers, v.handlers))
  }

  lemma TalkConfined(cfg: Config, w: World, m: Talk)
    requires CanTalk(w, m)
    ensures Confined(w, Talking(m), Talked(cfg, w, m))
  {
  }

  lemma SettleConfined(w: World, m: Settle)
    requires CanSettle(w, m)
    ensures Confined(w, Settling(m), Settled(w, m))
  {
  }

  lemma PrepareConfined(cfg: Config, w: World, m: Prepare)
    requires CanPrepare(w, m)
    ensures Confined(w, Preparing(m), Prepared(cfg, w, m))
  {
  }

  lemma PublishConfined(w: World, m: Publication)
    requires CanPublish(w, m)
    ensures Confined(w, Publishing(m), PublishMoved(w, m))
  {
  }

  lemma LoadConfined(w: World, m: LoadMove)
    requires CanLoad(w, m)
    ensures Confined(w, Loading(m), LoadMoved(w, m))
  {
  }

  lemma QuitConfined(w: World, m: Quit)
    requires CanQuit(w, m)
    ensures Confined(w, Quitting(m), QuitMoved(w, m))
  {
  }

  lemma CallConfined(w: World, m: Call)
    requires CanCall(w, m)
    ensures Confined(w, Calling(m), Called(w, m))
  {
  }

  lemma ReserveConfined(w: World, event: Event)
    ensures Confined(w, Reserving(event), ReserveEvent(w, event))
  {
  }

  lemma AcknowledgeConfined(cfg: Config, w: World, id: nat)
    ensures Confined(w, Acknowledging(id), FinalizeHandled(cfg, w, id))
  {
  }

  lemma MoveConfined(cfg: Config, w: World, m: Move)
    requires Possible(w, m)
    ensures Confined(w, m, Moved(cfg, w, m))
  {
    match m
    case Talking(talk) => TalkConfined(cfg, w, talk);
    case Settling(settle) => SettleConfined(w, settle);
    case Loading(load) => LoadConfined(w, load);
    case Preparing(prepare) => PrepareConfined(cfg, w, prepare);
    case Publishing(publication) => PublishConfined(w, publication);
    case Quitting(quit) => QuitConfined(w, quit);
    case Calling(call) => CallConfined(w, call);
    case Reserving(event) => ReserveConfined(w, event);
    case Acknowledging(id) => AcknowledgeConfined(cfg, w, id);
    case _ =>
  }

  lemma {:induction false} RunOnward(cfg: Config, worlds: seq<World>, moves: seq<Move>, i: nat, j: nat)
    requires Run(cfg, worlds, moves) && i <= j < |worlds|
    ensures Onward(worlds[i], worlds[j])
  {
    if i < j {
      RunOnward(cfg, worlds, moves, i, j - 1);
      MoveConfined(cfg, worlds[j - 1], moves[j - 1]);
    }
  }

  // ----- reservations and loads

  /** In every reachable state inFlight counts the events being handled plus the reservations held, is at most one, and
      is zero during a commit; a reservation waiting for a load means zoxide can never publish again. */
  lemma ReservationAccounting(cfg: Config, worlds: seq<World>, moves: seq<Move>, i: nat, j: nat)
    requires Sane(cfg) && Run(cfg, worlds, moves) && i <= j < |worlds|
    ensures var g := worlds[i].gate;
            && g.inFlight == |g.eventCancels| + |g.pendingEvents| <= 1
            && (g.committing ==> g.inFlight == 0)
            && g.nextEventID <= worlds[j].gate.nextEventID <= MAX_UINT64
            && forall id :: id in g.pendingEvents && g.pendingEvents[id].generation != 0 ==>
                 !worlds[j].gate.active && worlds[i].actor.current.generation == g.pendingEvents[id].generation
  {
    ReachableGood(cfg, worlds, moves, i);
    ReachableGood(cfg, worlds, moves, j);
    InFlightCounts(worlds[i].gate);
    RunOnward(cfg, worlds, moves, i, j);
  }

  /** A load that was let through and whose reservation still stands finds exactly the generation it asked for. */
  lemma ValidatedLoadNeverStale(cfg: Config, worlds: seq<World>, moves: seq<Move>, i: nat, thread: nat)
    requires Sane(cfg) && Run(cfg, worlds, moves) && i < |worlds| && thread in worlds[i].loads
    requires CheckLoad(worlds[i].gate, worlds[i].loads[thread].event, worlds[i].loads[thread].generation).LoadReady?
    ensures worlds[i].actor.current.generation == worlds[i].loads[thread].generation
  {
    ReachableGood(cfg, worlds, moves, i);
  }

  /** A load that is served returns the framing of its own generation, which is the current one at that moment. */
  lemma ServedLoadIsCurrent(cfg: Config, worlds: seq<World>, moves: seq<Move>, i: nat)
    requires Sane(cfg) && Run(cfg, worlds, moves) && i < |moves| && worlds[i + 1].served != worlds[i].served
    ensures moves[i].Loading? && moves[i].load.LoadStart?
    ensures var l := worlds[i].loads[moves[i].load.thread];
            && worlds[i + 1].served == worlds[i].served + [Served(l.event, l.generation, l.data)]
            && l.generation == worlds[i].actor.current.generation
            && l.data == Codec.Frame(worlds[i].actor.current.records)
  {
    ReachableGood(cfg, worlds, moves, i);
    MoveConfined(cfg, worlds[i], moves[i]);
    StartServes(cfg, worlds[i], moves[i].load.thread);
  }

  lemma StartServes(cfg: Config, w: World, thread: nat)
    requires Good(cfg, w) && CanLoad(w, LoadStart(thread)) && StartLoad(w, thread, w.loads[thread]).served != w.served
    ensures var l := w.loads[thread];
            && StartLoad(w, thread, l).served == w.served + [Served(l.event, l.generation, l.data)]
            && l.generation == w.actor.current.generation && l.data == Codec.Frame(w.actor.current.records)
  {
    var l := w.loads[thread];
    assert Faithful(w.actor, l.generation, l.data);
  }

  /** No event is ever served two loads, whatever finalizations are lost, repeated or replayed. */
  lemma OneLoadPerEvent(cfg: Config, worlds: seq<World>, moves: seq<Move>, i: nat, a: nat, b: nat)
    requires Sane(cfg) && Run(cfg, worlds, moves) && i < |worlds| && a < b < |worlds[i].served|
    ensures worlds[i].served[a].event != worlds[i].served[b].event
  {
    ReachableGood(cfg, worlds, moves, i);
  }

  // ----- events are serial

  /** How one move may change the actor's snapshot: enrichment, which keeps the state, or the one event being served,
      whose proposal was made from the very snapshot it replaces. */
  ghost predicate SerialChange(cfg: Config, w: World, enriches: bool, after: Snapshot) {
    var before := w.actor.current;
    || after == before
    || (&& enriches && after.state == before.state && before.generation < after.generation
        && after.records == AllMerged(cfg))
    || (&& Serving(w).Some? && (Serving(w).value.Proposed? || Serving(w).value.Waiting?)
        && Replaces(before, Serving(w).value, after))
  }

  /** after is what the handler proposed for before. */
  predicate Replaces(before: Snapshot, h: Handler, after: Snapshot)
    requires h.Proposed? || h.Waiting?
  {
    && h.seen == before && WellFormed(before, h.proposal) && after.state == h.proposal.state
    && if h.proposal.build.None? then after.generation == before.generation && after.records == before.records
       else before.generation < after.generation
  }

  lemma SubmitSerial(cfg: Config, w: World, id: nat)
    requires Good(cfg, w) && CanTalk(w, Submit(id))
    ensures SerialChange(cfg, w, false, SubmitProposal(w, id, w.handlers[id]).actor.current)
  {
    var h := w.handlers[id];
    assert Serving(w) == Some(h);
    SubmitOutcome(w.actor, id, h.proposal);
    var b := Receive(w.actor, CommandOf(id, h.proposal));
    assert h.proposal.build.Some? ==> b.current == w.actor.current by {
      if b.pending.None? && Answers(b, id)[0].Done? && h.proposal.build.Some? {
        assert Outcome(b, w.actor.current, h.proposal, Answers(b, id)[0].snapshot, Answers(b, id)[0].effect);
      }
    }
  }

  lemma CompletionSerial(cfg: Config, w: World, step: Step)
    requires Good(cfg, w) && Enabled(w.actor, step) && step.SComplete?
    ensures SerialChange(cfg, w, false, Next(w.actor, step).current)
  {
    CompletionOutcome(w.actor, step.id, step.outcome);
    var b := Next(w.actor, step);
    var id := w.gate.nextEventID;
    assert Serving(w).Some? && Serving(w).value.Waiting?;
    assert Answers(b, id)[0] in Answers(b, id);
  }

  lemma EnrichSerial(cfg: Config, w: World)
    requires Good(cfg, w) && w.commit.Cleared? && Selecting(w.actor)
    ensures SerialChange(cfg, w, true, CallEnrich(w, w.commit).actor.current)
  {
    if EnrichError(w.actor, SourceCtx, w.commit.base).None? { EnrichOutcome(w.actor, w.commit.base, w.commit.merged); }
  }

  /** Every change of the snapshot is one of these. */
  lemma MoveSerial(cfg: Config, w: World, m: Move)
    requires Good(cfg, w) && Possible(w, m)
    ensures SerialChange(cfg, w, m.Enriching?, Moved(cfg, w, m).actor.current)
  {
    if Submits(m) {
      SubmitSerial(cfg, w, m.talk.id);
    } else if m.Enriching? {
      EnrichSerial(cfg, w);
    } else if m.ActorMove? {
      if m.step.SComplete? { CompletionSerial(cfg, w, m.step); } else { OtherMovesUnseen(w.actor, m.step); }
    } else {
      MoveConfined(cfg, w, m);
    }
  }

  /** p is what Handle submits for the event when it reads that snapshot. */
  ghost predicate FromReducer(env: Env, event: Event, seen: Snapshot, p: Proposal) {
    && Reduce(env, seen, event).Ok?
    && exists created :: p == Submitted(env, seen, Reduce(env, seen, event).value, created)
  }

  /** Every proposal in flight is what the reducer made of its event and snapshot. */
  ghost predicate Origins(env: Env, handlers: map<nat, Handler>) {
    forall id :: id in handlers && Carries(handlers[id]) ==>
      FromReducer(env, handlers[id].event, handlers[id].seen, handlers[id].proposal)
  }

  lemma ReadOrigins(cfg: Config, w: World, id: nat, created: Option<CreatedTree>)
    requires CanTalk(w, ReadCurrent(id, created)) && Origins(cfg.env, w.handlers)
    ensures Origins(cfg.env, ReadAndReduce(cfg, w, id, w.handlers[id].event, created).handlers)
  {
    var event := w.handlers[id].event;
    var r := Reduce(cfg.env, w.actor.current, event);
    if r.Ok? {
      assert FromReducer(cfg.env, event, w.actor.current, Submitted(cfg.env, w.actor.current, r.value, created));
    }
  }

  lemma CarriedOrigins(env: Env, before: map<nat, Handler>, after: map<nat, Handler>)
    requires Origins(env, before) && CarriedOver(before, after)
    ensures Origins(env, after)
  {
  }

  lemma {:induction false} ReachableOrigins(cfg: Config, worlds: seq<World>, moves: seq<Move>, i: nat)
    requires Run(cfg, worlds, moves) && i < |worlds|
    ensures Origins(cfg.env, worlds[i].handlers)
  {
    if i > 0 {
      var w, m := worlds[i - 1], moves[i - 1];
      ReachableOrigins(cfg, worlds, moves, i - 1);
      if Reads(m) {
        ReadOrigins(cfg, w, m.talk.id, m.talk.created);
      } else {
        MoveConfined(cfg, w, m);
        CarriedOrigins(cfg.env, w.handlers, worlds[i].handlers);
      }
    }
  }

  /** Every run is a serial run of the reducer: the snapshot only ever changes by an enrichment, or to what the reducer
      made of the event being served and of the very snapshot it replaces, state and records included. */
  lemma EventsAreSerial(cfg: Config, worlds: seq<World>, moves: seq<Move>, i: nat)
    requires Sane(cfg) && Run(cfg, worlds, moves) && i < |moves|
    ensures SerialChange(cfg, worlds[i], moves[i].Enriching?, worlds[i + 1].actor.current)
    ensures var h := Serving(worlds[i]);
            h.Some? && Carries(h.value) ==> FromReducer(cfg.env, h.value.event, h.value.seen, h.value.proposal)
  {
    ReachableGood(cfg, worlds, moves, i);
    MoveSerial(cfg, worlds[i], moves[i]);
    ReachableOrigins(cfg, worlds, moves, i);
  }

  /** Without reservations the actor alone does not give this. Its optimistic check compares generations, and a change
      of mode does not make a new one: two handlers that read the same Normal-mode snapshot are both applied, and the
      second overwrites the first with a transition that the first one's state would have refused. */
  lemma ActorAloneLosesUpdates(a: ActorState, env: Env, c1: ApplyCommand, c2: ApplyCommand)
    requires Inv(a) && a.pending.None? && a.shutdown.None? && a.current.state.mode == Normal
    requires c1.id != c2.id && c1.id !in a.accepted && c2.id !in a.accepted && c1.ctx !in a.dead && c2.ctx !in a.dead
    requires Ok(Propose(c1.proposal)) == Reduce(env, a.current, Event(OpModeInsert, [], []))
    requires Ok(Propose(c2.proposal)) == Reduce(env, a.current, Event(OpModeAdd, [], []))
    ensures var b := Receive(a, c1); var c := Receive(b, c2);
            && Answers(b, c1.id)[0].Done? && b.current.state.mode == Insert
            && Reduce(env, b.current, Event(OpModeAdd, [], [])).Err?
            && Answers(c, c2.id)[0].Done? && c.current.state.mode == Add
  {
    assert Placed(a, c1.id) && Placed(a, c2.id);
  }

  // ----- the session and what fzf shows

  /** Prompt and mode agree in every reachable snapshot; picker and home never change; every effect handed to fzf
      renders. */
  lemma SessionStaysWellFormed(cfg: Config, worlds: seq<World>, moves: seq<Move>, i: nat)
    requires Sane(cfg) && Run(cfg, worlds, moves) && i < |worlds|
    ensures var state, start := worlds[i].actor.current.state, worlds[0].actor.current.state;
            StateOk(state) && state.picker == start.picker && state.home == start.home
    ensures forall id :: id in worlds[i].outbox ==> Renderable(worlds[i].outbox[id])
  {
    ReachableGood(cfg, worlds, moves, i);
  }

  /** Whenever no event is outstanding in a live session, fzf's bindings are those of the session's mode, `change` is
      armed exactly while the empty invalid-path list is shown, that list implies Insert mode, the header names the
      session's place, and a list fzf loaded is that of the current generation; and unless fzf still shows the initial
      stream, zoxide can no longer publish. */
  lemma BindingsFollowMode(cfg: Config, worlds: seq<World>, moves: seq<Move>, i: nat)
    requires Sane(cfg) && Run(cfg, worlds, moves) && i < |worlds|
    requires !worlds[i].gate.terminal && worlds[i].gate.inFlight == 0
    ensures Tracks(cfg.env, cfg.groups, worlds[i].view, worlds[i].actor.current)
    ensures !worlds[i].view.listing.Streamed? ==> !worlds[i].gate.active
  {
    ReachableGood(cfg, worlds, moves, i);
  }
}
