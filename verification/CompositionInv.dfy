/** The inductive invariant of the composition, kept by every step. */
module CompositionInv {
  import opened Basics
  import opened Protocol
  import opened Actor
  import opened Gate
  import opened Events
  import opened Render
  import opened Composition
  import opened InputStream
  import ActorRuns
  import Display
  import Codec
  import Merge

  // ----- shape: who holds what

  predicate InProgress(c: Commit) { !c.Idle? && !c.Over? }

  /** The part of a commit that relies on the base snapshot. */
  predicate InWindow(c: Commit) { c.Begun? || c.BaseRead? || c.Merging? || c.Locked? || c.Cleared? }

  ghost predicate Shape(w: World) {
    && Accounted(w.gate)
    && (w.gate.terminal ==> !w.gate.active)
    && HandlersKnown(w.handlers, w.gate.nextEventID, w.gate.eventCancels)
    && OwedAfterNavigation(w.handlers, w.navigated, w.gate.active)
    && CommitExcludes(w.commit, w.gate.committing, w.gate.activated, w.handlers)
  }

  ghost predicate HandlersKnown(handlers: map<nat, Handler>, nextEventID: nat, eventCancels: set<nat>) {
    && (forall id :: id in handlers ==> 0 < id <= nextEventID && (handlers[id].Resolved? <==> id !in eventCancels))
    && (forall id :: id in eventCancels ==> id in handlers)
  }

  ghost predicate OwedAfterNavigation(handlers: map<nat, Handler>, navigated: bool, active: bool) {
    forall id :: id in handlers && handlers[id].Resolved? ==> navigated && !active
  }

  predicate CommitExcludes(commit: Commit, committing: bool, activated: bool, handlers: map<nat, Handler>) {
    && (committing <==> InProgress(commit))
    && (InProgress(commit) ==> handlers == map[] && activated)
  }

  ghost predicate ActorOk(cfg: Config, w: World) {
    ActorOkOf(cfg, w.actor, w.gate.nextEventID, w.gate.eventCancels == {})
  }

  ghost predicate ActorOkOf(cfg: Config, actor: ActorState, nextEventID: nat, idle: bool) {
    && Inv(actor) && actor.replacement.None?
    && actor.current.generation > 0 && StateOk(actor.current.state)
    && actor.current.state.picker == cfg.picker && actor.current.state.home == cfg.home
    && (forall id :: id in actor.accepted ==> id <= nextEventID)
    && (idle ==> actor.pending.None?)
  }

  // ----- the handler being served

  /** p was applied: the snapshot is the current one and carries exactly what p proposed. */
  predicate Outcome(a: ActorState, seen: Snapshot, p: Proposal, s: Snapshot, e: Effect) {
    && a.current == s && s.state == p.state && e == Stamped(p, s.generation)
    && (if p.build.Some? then seen.generation < s.generation
        else s.generation == seen.generation && s.records == seen.records)
  }

  predicate Fits(a: ActorState, seen: Snapshot, p: Proposal, r: Reply) {
    match r
    case Failed(_) => a.current == seen
    case Done(s, e) => Outcome(a, seen, p, s, e)
  }

  /** What the reducer made of a snapshot. */
  predicate Fair(env: Env, seen: Snapshot, p: Proposal) {
    seen.generation > 0 && WellFormed(seen, p) && HeaderFollows(env, seen, p)
  }

  predicate HandlerOk(env: Env, a: ActorState, active: bool, id: nat, h: Handler) {
    match h
    case Reserved(_) => id !in a.accepted && a.pending.None?
    case Proposed(_, seen, p) => id !in a.accepted && a.pending.None? && a.current == seen && Fair(env, seen, p)
    case Waiting(_, seen, p) =>
      && id in a.accepted && Fair(env, seen, p)
      && (a.pending.Some? ==> a.pending.value.command == CommandOf(id, p) && a.current == seen)
      && (a.pending.None? ==> |Answers(a, id)| == 1 && Fits(a, seen, p, Answers(a, id)[0]))
    case Returned(_, seen, p, s, e) => a.pending.None? && Fair(env, seen, p) && Outcome(a, seen, p, s, e)
    case Checked(event, seen, p, s, e, wasActive) =>
      && a.pending.None? && Fair(env, seen, p) && Outcome(a, seen, p, s, Stamped(p, s.generation))
      && e == Screened(wasActive, event.opcode, Stamped(p, s.generation))
      && (!wasActive ==> !active)
    case Erred(_, _) => a.pending.None?
    case Resolved(_) => true
  }

  /** The handler of the event being served, if any. */
  function Serving(w: World): Option<Handler> { ServingOf(w.gate.eventCancels, w.gate.nextEventID, w.handlers) }

  function ServingOf(eventCancels: set<nat>, nextEventID: nat, handlers: map<nat, Handler>): Option<Handler> {
    if eventCancels != {} && nextEventID in handlers then Some(handlers[nextEventID]) else None
  }

  predicate HandlersOk(cfg: Config, w: World) {
    HandlersOkOf(cfg.env, w.actor, w.gate.active, w.gate.nextEventID, Serving(w))
  }

  predicate HandlersOkOf(env: Env, actor: ActorState, active: bool, id: nat, serving: Option<Handler>) {
    serving.Some? ==> HandlerOk(env, actor, active, id, serving.value)
  }

  /** The handler's event has already published a navigation. */
  predicate Navigated(a: ActorState, id: nat, h: Handler) {
    match h
    case Waiting(_, _, p) => p.build.Some? && a.pending.None? && Answers(a, id) != [] && Answers(a, id)[0].Done?
    case Returned(_, _, p, _, _) => p.build.Some?
    case Checked(_, _, p, _, _, _) => p.build.Some?
    case _ => false
  }

  // ----- generations

  predicate GenerationsOk(w: World) {
    && NavigationOk(w.navigated, w.gate.active, ServingNavigated(w.actor, w.gate.nextEventID, Serving(w)))
    && BaseOk(w.gate.activated && !w.navigated && (w.enriched.None? || w.commit.Over?), w.gate.baseGeneration,
              w.actor.current.generation)
    && (w.enriched.Some? && !w.navigated ==> w.actor.current.generation == w.enriched.value)
    && AwaitedOk(w.gate.nextEventID, w.gate.pendingEvents, w.actor.current.generation)
    && (InProgress(w.commit) ==> !w.navigated)
    && CommitGenerations(w.actor.current.generation, w.commit, w.enriched)
  }

  predicate ServingNavigated(actor: ActorState, id: nat, serving: Option<Handler>) {
    serving.Some? && Navigated(actor, id, serving.value)
  }

  predicate NavigationOk(navigated: bool, active: bool, serving: bool) {
    (navigated && active ==> serving) && (serving ==> navigated)
  }

  predicate BaseOk(untouched: bool, base: nat, generation: nat) { untouched ==> base == generation }

  /** A reservation that waits for a load waits for the current generation. */
  predicate AwaitedOk(id: nat, pending: map<nat, PendingEvent>, generation: nat) {
    id in pending && pending[id].generation != 0 ==> pending[id].generation == generation
  }

  predicate CommitGenerations(generation: nat, commit: Commit, enriched: Option<nat>) {
    && (enriched.Some? ==>
          commit.Over? || commit == Ending(enriched) || (commit.Published? && commit.generation == enriched.value))
    && (commit.Published? ==> enriched == Some(commit.generation))
    && (commit.Ending? ==> commit.published == enriched)
    && (InWindow(commit) && !commit.Begun? ==> commit.base == generation)
  }

  // ----- stream and snapshot

  function AllAdmitted(cfg: Config): seq<Record> { Merge.Admitted(cfg.clean, cfg.base, cfg.source) }

  function AllMerged(cfg: Config): seq<Record> { Merge.Merged(cfg.clean, cfg.base, cfg.source) }

  predicate StreamOk(cfg: Config, w: World) {
    && HeldOk(w.stream.held, w.commit)
    && AppendedOk(cfg, w.stream.appended, w.enriched.Some? && !w.commit.Published?)
    && RecordsOk(cfg, w.actor.current.records, w.navigated, w.enriched.Some?)
    && MergeOk(cfg, w.commit)
    && EnrichedOk(cfg, w.actor.published, w.enriched)
  }

  predicate HeldOk(held: bool, commit: Commit) { held <==> commit.Locked? || commit.Cleared? || commit.Published? }

  predicate AppendedOk(cfg: Config, appended: Bytes, written: bool) {
    appended == if written then Codec.Frame(cfg.base) + Codec.Frame(AllAdmitted(cfg)) else Codec.Frame(cfg.base)
  }

  predicate RecordsOk(cfg: Config, records: seq<Record>, navigated: bool, enriched: bool) {
    !navigated ==> records == if enriched then AllMerged(cfg) else cfg.base
  }

  predicate MergeOk(cfg: Config, commit: Commit) {
    && (commit.Merging? || commit.Locked? || commit.Cleared? ==> commit.merged == AllMerged(cfg))
    && (commit.Merging? || commit.Locked? || commit.Cleared? || commit.Published? ==>
          commit.admitted == AllAdmitted(cfg) && AllAdmitted(cfg) != [])
  }

  predicate EnrichedOk(cfg: Config, published: map<nat, seq<Record>>, enriched: Option<nat>) {
    enriched.Some? ==>
      enriched.value in published && published[enriched.value] == AllMerged(cfg) && AllAdmitted(cfg) != []
  }

  // ----- loads

  predicate Faithful(a: ActorState, generation: nat, data: Bytes) { FaithfulTo(a.published, generation, data) }

  predicate FaithfulTo(published: map<nat, seq<Record>>, generation: nat, data: Bytes) {
    generation in published && data == Codec.Frame(published[generation])
  }

  ghost predicate LoadsOk(w: World) {
    && FramedOk(w.actor.published, w.loads)
    && ServedFaithful(w.actor.published, w.served)
    && ServedKnown(w.served, w.gate.nextEventID, w.gate.eventCancels)
    && ServedMarked(w.served, w.gate.pendingEvents)
    && ServedOnce(w.served)
  }

  ghost predicate FramedOk(published: map<nat, seq<Record>>, loads: map<nat, Load>) {
    forall t :: t in loads && loads[t].Framed? ==> FaithfulTo(published, loads[t].generation, loads[t].data)
  }

  ghost predicate ServedFaithful(published: map<nat, seq<Record>>, served: seq<Served>) {
    forall i :: 0 <= i < |served| ==> FaithfulTo(published, served[i].generation, served[i].data)
  }

  ghost predicate ServedKnown(served: seq<Served>, nextEventID: nat, eventCancels: set<nat>) {
    forall i :: 0 <= i < |served| ==> served[i].event <= nextEventID && served[i].event !in eventCancels
  }

  ghost predicate ServedMarked(served: seq<Served>, pending: map<nat, PendingEvent>) {
    forall i :: 0 <= i < |served| && served[i].event in pending ==> pending[served[i].event].loadRequested
  }

  ghost predicate ServedOnce(served: seq<Served>) {
    forall i, j :: 0 <= i < j < |served| ==> served[i].event != served[j].event
  }

  // ----- what fzf shows

  /** The snapshot fzf was last brought in step with. */
  function ShownSnapshot(current: Snapshot, h: Handler): Snapshot {
    match h
    case Proposed(_, seen, _) => seen
    case Waiting(_, seen, _) => seen
    case Returned(_, seen, _, _, _) => seen
    case Checked(_, seen, _, _, _, _) => seen
    case _ => current
  }

  predicate Unapplied(pending: map<nat, PendingEvent>, id: nat) { id in pending && !pending[id].finalized }

  /** The effect replaces the list fzf shows. */
  predicate Relists(e: Effect) { e.reload != 0 || e.restore != 0 || e.invalidPath }

  ghost predicate ViewOk(cfg: Config, w: World) {
    && OutboxOk(w.outbox, w.gate.nextEventID, w.gate.eventCancels)
    && (w.view.listing.Streamed? || (!w.gate.active && !InWindow(w.commit)))
    && ShownOk(cfg, w.actor.current, w.gate.terminal, w.gate.nextEventID, w.gate.pendingEvents, Serving(w),
               w.view, w.outbox)
    && HandedOutOk(w.gate.nextEventID, w.gate.pendingEvents, w.gate.terminal, w.gate.active, w.outbox)
  }

  ghost predicate OutboxOk(outbox: map<nat, Effect>, nextEventID: nat, eventCancels: set<nat>) {
    forall id :: id in outbox ==> Renderable(outbox[id]) && id <= nextEventID && id !in eventCancels
  }

  predicate ShownOk(cfg: Config, current: Snapshot, terminal: bool, id: nat, pending: map<nat, PendingEvent>,
                    serving: Option<Handler>, view: View, outbox: map<nat, Effect>)
  {
    match serving
    case Some(h) =>
      && (h.Checked? && h.wasActive ==> view.listing.Streamed?)
      && (!terminal ==> Tracks(cfg.env, cfg.groups, view, ShownSnapshot(current, h)))
    case None => !terminal ==> Tracks(cfg.env, cfg.groups, Expected(cfg, id, pending, view, outbox), current)
  }

  predicate HandedOutOk(id: nat, pending: map<nat, PendingEvent>, terminal: bool, active: bool,
                        outbox: map<nat, Effect>)
  {
    Unapplied(pending, id) && !terminal ==> id in outbox && (Relists(outbox[id]) ==> !active)
  }

  /** What fzf shows once it has performed the last effect handed out. */
  function Expected(cfg: Config, id: nat, pending: map<nat, PendingEvent>, view: View, outbox: map<nat, Effect>): View {
    if Unapplied(pending, id) && id in outbox then After(cfg.groups, view, outbox[id], id) else view
  }

  ghost predicate Good(cfg: Config, w: World) {
    && Shape(w) && ActorOk(cfg, w) && HandlersOk(cfg, w) && GenerationsOk(w)
    && StreamOk(cfg, w) && LoadsOk(w) && ViewOk(cfg, w)
  }

  /** What the environment is trusted for: no control character is graphic, and the key groups do not overlap. */
  ghost predicate Sane(cfg: Config) { Display.RejectsControls(cfg.env.graphic) && Separate(cfg.groups) }

  lemma InitInv(cfg: Config, w: World)
    requires Sane(cfg) && Init(cfg, w)
    ensures Good(cfg, w)
  {
    StartInStep(cfg.groups, w.view.line.header, w.actor.current.state);
  }

  // ----- the commit and the stream

  /** Only the commit moved on, and with it perhaps the lock on the stream. */
  lemma CommitOnlyGood(cfg: Config, w: World, commit: Commit, held: bool)
    requires Good(cfg, w) && InWindow(w.commit) && InProgress(commit) && !commit.Published?
    requires CommitGenerations(w.actor.current.generation, commit, w.enriched) && HeldOk(held, commit)
             && MergeOk(cfg, commit)
    ensures Good(cfg, w.(commit := commit, stream := w.stream.(held := held)))
  {
  }

  lemma CommitStartGood(cfg: Config, w: World)
    requires Good(cfg, w) && CanPrepare(w, CommitStart)
    ensures Good(cfg, w.(gate := BeginCommit(w.gate), commit := Begun))
  {
    assert w.handlers.Keys == {};
  }

  lemma PrepareGood(cfg: Config, w: World, m: Prepare)
    requires Good(cfg, w) && CanPrepare(w, m)
    ensures Good(cfg, Prepared(cfg, w, m))
  {
    if m.CommitStart? {
      CommitStartGood(cfg, w);
    } else {
      var v := Prepared(cfg, w, m);
      assert v == w.(commit := v.commit, stream := w.stream.(held := false));
      CommitOnlyGood(cfg, w, v.commit, false);
    }
  }

  lemma WriteGood(cfg: Config, w: World)
    requires Good(cfg, w) && w.commit.Published?
    ensures Good(cfg, WriteFrames(w, w.commit))
  {
  }

  lemma PublishGood(cfg: Config, w: World, m: Publication)
    requires Good(cfg, w) && CanPublish(w, m)
    ensures Good(cfg, PublishMoved(w, m))
  {
    if m.CommitWrite? {
      WriteGood(cfg, w);
    } else {
      var v := PublishMoved(w, m);
      CommitOnlyGood(cfg, w, v.commit, v.stream.held);
    }
  }

  lemma QuitGood(cfg: Config, w: World, m: Quit)
    requires Good(cfg, w) && CanQuit(w, m)
    ensures Good(cfg, QuitMoved(w, m))
  {
    assert Serving(QuitMoved(w, m)) == Serving(w);
  }

  /** A successful enrichment: a fresh generation holding the merged records, the state as it was. */
  ghost predicate EnrichesTo(a: ActorState, b: ActorState, records: seq<Record>) {
    && Inv(b) && b.current.state == a.current.state && b.current.records == records
    && b.current.generation > a.current.generation
    && b.pending == a.pending && b.replacement == a.replacement && b.accepted == a.accepted && b.answers == a.answers
    && forall g :: g in a.published ==> g in b.published && b.published[g] == a.published[g]
  }

  lemma EnrichOutcome(a: ActorState, base: nat, records: seq<Record>)
    requires Inv(a) && Selecting(a) && EnrichError(a, SourceCtx, base).None?
    ensures EnrichesTo(a, Enrich(a, SourceCtx, base, records), records)
  {
    InvKept(a, SEnrich(SourceCtx, base, records));
  }

  /** Publishing between the check of the active flag and the write, whether or not Stop came in between. */
  lemma EnrichedGood(cfg: Config, w: World, b: ActorState)
    requires Good(cfg, w) && w.commit.Cleared? && EnrichesTo(w.actor, b, w.commit.merged)
    ensures Good(cfg, w.(actor := b, enriched := Some(b.current.generation),
                         commit := Published(b.current.generation, w.commit.admitted)))
  {
    assert Serving(w).None?;
  }

  lemma EnrichingGood(cfg: Config, w: World)
    requires Good(cfg, w) && Possible(w, Enriching)
    ensures Good(cfg, CallEnrich(w, w.commit))
  {
    if EnrichError(w.actor, SourceCtx, w.commit.base).None? {
      EnrichOutcome(w.actor, w.commit.base, w.commit.merged);
      EnrichedGood(cfg, w, Enrich(w.actor, SourceCtx, w.commit.base, w.commit.merged));
    } else {
      CommitOnlyGood(cfg, w, Ending(None), false);
    }
  }

  lemma CommitGood(cfg: Config, w: World, m: Move)
    requires Good(cfg, w) && Possible(w, m) && (m.Preparing? || m.Publishing? || m.Enriching? || m.Quitting?)
    ensures Good(cfg, Moved(cfg, w, m))
  {
    match m
    case Preparing(prepare) => PrepareGood(cfg, w, prepare);
    case Publishing(publication) => PublishGood(cfg, w, publication);
    case Enriching => EnrichingGood(cfg, w);
    case Quitting(quit) => QuitGood(cfg, w, quit);
  }

  // ----- the coordinator

  /** What another caller of the gate may do to it: end or activate the coordinator, and drop its reservations. */
  ghost predicate Steered(w: World, g: Gate) {
    && Accounted(g) && (g.terminal ==> !g.active)
    && g.eventCancels == w.gate.eventCancels && g.nextEventID == w.gate.nextEventID
    && g.committing == w.gate.committing && (w.gate.activated ==> g.activated)
    && (g.active ==> w.gate.active) && (w.gate.terminal ==> g.terminal)
    && (g.pendingEvents == w.gate.pendingEvents || (g.pendingEvents == map[] && g.terminal))
    && (if w.gate.activated then g.baseGeneration == w.gate.baseGeneration
        else g.activated ==> g.baseGeneration == w.actor.current.generation)
  }

  lemma CallSteers(w: World, m: Call)
    requires Accounted(w.gate) && (w.gate.terminal ==> !w.gate.active) && CanCall(w, m)
    ensures Called(w, m) == w.(gate := Called(w, m).gate) && Steered(w, Called(w, m).gate)
  {
    if m.Stopping? { StopAccounted(w.gate, m.cause); }
  }

  lemma SteeredGood(cfg: Config, w: World, g: Gate)
    requires Good(cfg, w) && Steered(w, g)
    ensures Good(cfg, w.(gate := g))
  {
    assert Serving(w.(gate := g)) == Serving(w);
  }

  lemma CallGood(cfg: Config, w: World, m: Call)
    requires Good(cfg, w) && CanCall(w, m)
    ensures Good(cfg, Called(w, m))
  {
    CallSteers(w, m);
    SteeredGood(cfg, w, Called(w, m).gate);
  }

  lemma ReservedGood(cfg: Config, w: World, event: Event)
    requires Good(cfg, w) && w.gate.activated && CanReserve(w.gate)
    ensures Good(cfg, ReserveEvent(w, event))
  {
    assert w.gate.eventCancels == {} && w.gate.pendingEvents == map[];
    assert Serving(ReserveEvent(w, event)) == Some(Reserved(event));
  }

  /** The newest event's actions were performed: its reservation ends or waits for the load. */
  ghost predicate Performed(before: Gate, g: Gate) {
    var id := before.nextEventID;
    && Accounted(g) && Unapplied(before.pendingEvents, id)
    && g == before.(pendingEvents := g.pendingEvents, inFlight := g.inFlight) && g.pendingEvents.Keys <= {id}
    && (id in g.pendingEvents ==>
          g.pendingEvents[id].finalized && g.pendingEvents[id].generation == before.pendingEvents[id].generation)
  }

  lemma AppliedGood(cfg: Config, w: World, g: Gate)
    requires Good(cfg, w) && Performed(w.gate, g)
    ensures var id := w.gate.nextEventID;
            var view := if id in w.outbox then After(cfg.groups, w.view, w.outbox[id], id) else w.view;
            Good(cfg, w.(gate := g, view := view))
  {
    assert Serving(w).None?;
    assert forall i :: 0 <= i < |w.served| ==> w.served[i].event != w.gate.nextEventID;
    AppliedView(cfg, w, g);
  }

  lemma AppliedView(cfg: Config, w: World, g: Gate)
    requires Shape(w) && ViewOk(cfg, w) && Performed(w.gate, g) && Serving(w).None?
    ensures var id := w.gate.nextEventID;
            var view := if id in w.outbox then After(cfg.groups, w.view, w.outbox[id], id) else w.view;
            ViewOk(cfg, w.(gate := g, view := view))
  {
  }

  lemma EventFinalizationGood(cfg: Config, w: World, id: nat)
    requires Good(cfg, w)
    ensures Good(cfg, FinalizeHandled(cfg, w, id))
  {
    FinalizeEventAccounted(w.gate, id);
    if Unapplied(w.gate.pendingEvents, id) {
      assert (w.gate.pendingEvents - {id}).Keys == {};
      AppliedGood(cfg, w, FinalizeEvent(w.gate, id));
    }
  }

  // ----- loads

  lemma LoadsOnlyGood(cfg: Config, w: World, loads: map<nat, Load>)
    requires Good(cfg, w) && FramedOk(w.actor.published, loads)
    ensures Good(cfg, w.(loads := loads))
  {
  }

  lemma FramedByRead(w: World, t: nat)
    requires LoadsOk(w) && History(w.actor) && t in w.loads && w.loads[t].Validated?
    ensures FramedOk(w.actor.published, ReadLoad(w, t, w.loads[t]).loads)
    ensures ReadLoad(w, t, w.loads[t]) == w.(loads := ReadLoad(w, t, w.loads[t]).loads)
  {
  }

  /** A first load for the newest event, faithful to its generation, joins the log of served loads. */
  lemma ServedMore(w: World, g: Gate, x: Served)
    requires LoadsOk(w) && FaithfulTo(w.actor.published, x.generation, x.data)
    requires x.event in w.gate.pendingEvents && !w.gate.pendingEvents[x.event].loadRequested
    requires g == BeginLoad(w.gate, x.event) && x.event <= g.nextEventID && x.event !in g.eventCancels
    ensures LoadsOk(w.(gate := g, served := w.served + [x]))
  {
  }

  lemma ServedGood(cfg: Config, w: World, l: Load)
    requires Good(cfg, w) && l.Framed? && Faithful(w.actor, l.generation, l.data)
    requires CheckLoad(w.gate, l.event, l.generation).LoadReady?
    ensures var served := w.served + [Served(l.event, l.generation, l.data)];
            Good(cfg, w.(gate := BeginLoad(w.gate, l.event), served := served))
  {
    LoadAccounted(w.gate, l.event, l.generation);
    assert l.event == w.gate.nextEventID;
    ServedMore(w, BeginLoad(w.gate, l.event), Served(l.event, l.generation, l.data));
  }

  lemma LoadReleasedGood(cfg: Config, w: World, id: nat)
    requires Good(cfg, w)
    ensures Good(cfg, w.(gate := FinalizeLoad(w.gate, id)))
  {
    if CanFinalizeLoad(w.gate, id) {
      LoadAccounted(w.gate, id, 0);
      var v := w.(gate := FinalizeLoad(w.gate, id));
      assert ViewOk(cfg, v);
      assert LoadsOk(v);
    }
  }

  lemma LoadGood(cfg: Config, w: World, m: LoadMove)
    requires Good(cfg, w) && CanLoad(w, m)
    ensures Good(cfg, LoadMoved(w, m))
  {
    match m
    case LoadValidation(t, id, generation) => LoadsOnlyGood(cfg, w, w.loads[t := Validated(id, generation)]);
    case LoadRead(t) =>
      FramedByRead(w, t);
      LoadsOnlyGood(cfg, w, ReadLoad(w, t, w.loads[t]).loads);
    case LoadStart(t) =>
      var l := w.loads[t];
      LoadsOnlyGood(cfg, w, w.loads - {t});
      if CheckLoad(w.gate, l.event, l.generation).LoadReady? { ServedGood(cfg, w.(loads := w.loads - {t}), l); }
    case LoadFinalization(id) => LoadReleasedGood(cfg, w, id);
  }

  // ----- a handler talking to the actor

  /** Only the handler being served moved on, and nothing it decides for others changed. */
  lemma HandlerOnlyGood(cfg: Config, w: World, h: Handler)
    requires Good(cfg, w) && Serving(w).Some? && !h.Resolved?
    requires HandlerOk(cfg.env, w.actor, w.gate.active, w.gate.nextEventID, h)
    requires Navigated(w.actor, w.gate.nextEventID, h) == Navigated(w.actor, w.gate.nextEventID, Serving(w).value)
    requires !w.gate.terminal ==> Tracks(cfg.env, cfg.groups, w.view, ShownSnapshot(w.actor.current, h))
    requires h.Checked? && h.wasActive ==> w.view.listing.Streamed?
    ensures Good(cfg, With(w, w.gate.nextEventID, h))
  {
    assert Serving(With(w, w.gate.nextEventID, h)) == Some(h);
  }

  lemma ReadCurrentGood(cfg: Config, w: World, id: nat, created: Option<CreatedTree>)
    requires Good(cfg, w) && Sane(cfg) && id in w.handlers && w.handlers[id].Reserved?
    ensures Good(cfg, ReadAndReduce(cfg, w, id, w.handlers[id].event, created))
  {
    var event := w.handlers[id].event;
    var reduction := Reduce(cfg.env, w.actor.current, event);
    assert Serving(w) == Some(w.handlers[id]);
    if reduction.Ok? {
      SubmittedWellFormed(cfg.env, w.actor.current, event, created);
      EventsLand(cfg.env, w.actor.current, event, created);
      HandlerOnlyGood(cfg, w, Proposed(event, w.actor.current,
          Submitted(cfg.env, w.actor.current, reduction.value, created)));
    } else {
      HandlerOnlyGood(cfg, w, Erred(event, reduction.error));
    }
  }

  /** What the actor makes of a proposal based on its own current snapshot, when nothing else is in progress. */
  ghost predicate SubmitsTo(a: ActorState, b: ActorState, id: nat, p: Proposal) {
    && Inv(b) && b.replacement.None? && b.accepted == a.accepted + {id} && b.published == a.published
    && b.current.generation == a.current.generation && b.current.records == a.current.records
    && (b.current == a.current || b.current.state == p.state)
    && (b.pending.Some? ==> b.pending.value.command == CommandOf(id, p) && b.current == a.current)
    && (b.pending.None? ==> |Answers(b, id)| == 1 && Fits(b, a.current, p, Answers(b, id)[0]))
  }

  lemma SubmitOutcome(a: ActorState, id: nat, p: Proposal)
    requires Inv(a) && a.pending.None? && a.replacement.None? && Selecting(a) && id !in a.accepted
    requires p.base == a.current.generation
    ensures SubmitsTo(a, Receive(a, CommandOf(id, p)), id, p)
  {
    var c := CommandOf(id, p);
    InvKept(a, SApply(c));
    ActorRuns.ReceiveHonest(a, c);
    var b := Receive(a, c);
    ReceiveKeeps(a, c);
    if b.pending.None? {
      assert Answers(b, id)[0] in Answers(b, id);
    }
  }

  lemma ReceiveKeeps(a: ActorState, c: ApplyCommand)
    requires a.pending.None? && a.replacement.None?
    ensures var b := Receive(a, c);
            && b.replacement.None? && b.accepted == a.accepted + {c.id} && b.published == a.published
            && b.current.generation == a.current.generation && b.current.records == a.current.records
            && (b.current == a.current || b.current.state == c.proposal.state)
            && (b.pending.Some? ==> b.pending.value.command == c && b.current == a.current)
  {
    var t := a.(accepted := a.accepted + {c.id});
    if t.shutdown.None? && c.ctx !in t.dead && c.proposal.base == t.current.generation {
      StartKeeps(t, c);
    }
  }

  predicate Keeps(a: ActorState, b: ActorState, c: ApplyCommand) {
    && b.replacement == a.replacement && b.accepted == a.accepted && b.published == a.published
    && b.current.generation == a.current.generation && b.current.records == a.current.records
    && (b.current == a.current || b.current.state == c.proposal.state)
    && (b.pending.Some? ==> b.pending.value.command == c && b.current == a.current)
  }

  lemma StartKeeps(a: ActorState, c: ApplyCommand)
    requires a.pending.None?
    ensures Keeps(a, Start(a, c), c)
  {
    if c.ctx in a.dead {
      assert Keeps(a, Refuse(a, c, Cause(c.ctx)), c);
    } else if c.proposal.base != a.current.generation {
      assert Keeps(a, Refuse(a, c, StaleGeneration), c);
    } else if c.proposal.build.None? {
    } else if !a.hasGenerator {
      assert Keeps(a, Refuse(a, c, NilGenerator), c);
    } else if a.nextID == MAX_UINT64 {
      assert Keeps(a, Refuse(a, c, GenerationLimit), c);
    }
  }

  lemma SubmittedGood(cfg: Config, w: World, id: nat, b: ActorState)
    requires Good(cfg, w) && id in w.handlers && w.handlers[id].Proposed?
    requires SubmitsTo(w.actor, b, id, w.handlers[id].proposal)
    ensures var h := w.handlers[id]; Good(cfg, With(w.(actor := b), id, Waiting(h.event, h.seen, h.proposal)))
  {
    var h := w.handlers[id];
    var v := With(w.(actor := b), id, Waiting(h.event, h.seen, h.proposal));
    assert Serving(w) == Some(h) && Serving(v) == Some(Waiting(h.event, h.seen, h.proposal));
  }

  lemma TalkGood(cfg: Config, w: World, m: Talk)
    requires Sane(cfg) && Good(cfg, w) && CanTalk(w, m)
    ensures Good(cfg, Talked(cfg, w, m))
  {
    var h := w.handlers[m.id];
    assert Serving(w) == Some(h);
    match m
    case ReadCurrent(id, created) => ReadCurrentGood(cfg, w, id, created);
    case GiveUp(id, error) => HandlerOnlyGood(cfg, w, Erred(h.event, error));
    case Submit(id) =>
      SubmitOutcome(w.actor, id, h.proposal);
      SubmittedGood(cfg, w, id, Receive(w.actor, CommandOf(id, h.proposal)));
    case Collect(id) => CollectGood(cfg, w, id);
  }

  lemma CollectGood(cfg: Config, w: World, id: nat)
    requires Good(cfg, w) && CanTalk(w, Collect(id))
    ensures Good(cfg, CollectReply(w, id, w.handlers[id]))
  {
    var h := w.handlers[id];
    assert Serving(w) == Some(h) && Placed(w.actor, id);
    match Answers(w.actor, id)[0]
    case Failed(e) => HandlerOnlyGood(cfg, w, Erred(h.event, e));
    case Done(s, e) => HandlerOnlyGood(cfg, w, Returned(h.event, h.seen, h.proposal, s, e));
  }

  // ----- the actor

  /** Nothing a handler, load or commit can see changed. */
  predicate Unseen(a: ActorState, b: ActorState) {
    && b.current == a.current && b.accepted == a.accepted && b.answers == a.answers && b.published == a.published
    && b.replacement.None? && b.pending.Some? == a.pending.Some?
    && (b.pending.Some? ==> b.pending.value.command == a.pending.value.command)
  }

  lemma UnseenGood(cfg: Config, w: World, b: ActorState)
    requires Good(cfg, w) && Inv(b) && Unseen(w.actor, b)
    ensures Good(cfg, w.(actor := b))
  {
    assert HandlersOk(cfg, w.(actor := b)) && GenerationsOk(w.(actor := b));
  }

  lemma OtherMovesUnseen(a: ActorState, step: Step)
    requires Inv(a) && a.replacement.None? && Enabled(a, step) && Internal(step) && !step.SComplete?
    ensures Unseen(a, Next(a, step))
  {
  }

  /** A completion settles the one command the actor was working on. */
  ghost predicate CompletesTo(a: ActorState, b: ActorState) {
    && a.pending.Some? && Inv(b) && b.replacement.None? && b.pending.None? && b.accepted == a.accepted
    && var c := a.pending.value.command;
    && |Answers(b, c.id)| == 1 && ActorRuns.HonestReplies(a, b, c)
    && c.proposal.build.Some?
    && (b.current.generation == a.current.generation ==> b.current == a.current && Answers(b, c.id)[0].Failed?)
    && (b.current.generation != a.current.generation ==> Answers(b, c.id)[0].Done?)
    && ActorRuns.Later(a, b)
  }

  lemma CompletionOutcome(a: ActorState, id: nat, outcome: BuildOutcome)
    requires Inv(a) && a.replacement.None? && Enabled(a, SComplete(id, outcome))
    ensures CompletesTo(a, Complete(a, id, outcome))
  {
    InvKept(a, SComplete(id, outcome));
    ActorRuns.CompleteHonest(a, id, outcome);
    ActorRuns.StepLater(a, SComplete(id, outcome));
    CompleteShape(a, id, outcome);
    var b := Complete(a, id, outcome);
    assert Answers(b, a.pending.value.command.id)[0] in Answers(b, a.pending.value.command.id);
  }

  function Completed(w: World, b: ActorState): World {
    w.(actor := b, navigated := w.navigated || b.current.generation != w.actor.current.generation)
  }

  lemma CompletedGood(cfg: Config, w: World, b: ActorState)
    requires Good(cfg, w) && CompletesTo(w.actor, b)
    ensures Good(cfg, Completed(w, b))
  {
    var id := w.gate.nextEventID;
    assert Serving(w).Some? && Serving(w).value.Waiting?;
    assert Serving(Completed(w, b)) == Serving(w);
    assert Answers(b, id)[0] in Answers(b, id);
  }

  lemma ActorMoveGood(cfg: Config, w: World, step: Step)
    requires Good(cfg, w) && Internal(step) && Enabled(w.actor, step)
    ensures Good(cfg, MoveActor(w, step))
  {
    if step.SComplete? {
      CompletionOutcome(w.actor, step.id, step.outcome);
      CompletedGood(cfg, w, Next(w.actor, step));
    } else {
      InvKept(w.actor, step);
      OtherMovesUnseen(w.actor, step);
      UnseenGood(cfg, w, Next(w.actor, step));
    }
  }

  // ----- resolveEvent

  /** A failed event leaves nothing but the end of its reservation. */
  lemma FailedGood(cfg: Config, w: World, id: nat)
    requires Good(cfg, w) && id in w.handlers && w.handlers[id].Erred?
    ensures Good(cfg, ResolveHandler(w, id, w.handlers[id]))
  {
    assert Serving(w) == Some(w.handlers[id]) && w.gate.eventCancels - {id} == {};
    assert Serving(ResolveHandler(w, id, w.handlers[id])).None?;
  }

  /** What is left of a handler after resolveEvent: nothing, or the owed base update of a navigation. */
  predicate Leaves(w: World, handlers: map<nat, Handler>, e: Effect) {
    forall id :: id in handlers ==>
      (id in w.handlers && id != w.gate.nextEventID && handlers[id] == w.handlers[id])
      || (id == w.gate.nextEventID && handlers[id].Resolved? && e.reload != 0)
  }

  /** An acknowledged event's effect is handed out, and a reserved event is always acknowledged. */
  predicate Delivered(w: World, g: Gate, e: Effect, outbox: map<nat, Effect>) {
    var id := w.gate.nextEventID;
    outbox == w.outbox[id := e] || (outbox == w.outbox && id !in g.pendingEvents)
  }

  /** The generations an effect can carry, and when a restore survives screening. */
  lemma ScreenedShape(p: Proposal, seen: Snapshot, generation: nat, wasActive: bool, opcode: Opcode)
    requires WellFormed(seen, p) && generation > 0
    ensures var e := Screened(wasActive, opcode, Stamped(p, generation));
            && (e.reload != 0 <==> p.build.Some?) && (e.reload != 0 ==> e.reload == generation)
            && (e.restore != 0 ==> e.restore == seen.generation && p.build.None?)
            && (e.restore != 0 && wasActive ==> opcode == OpRestoreView)
  {
  }

  lemma ResolvedCore(cfg: Config, w: World, g: Gate, handlers: map<nat, Handler>, outbox: map<nat, Effect>)
    requires Good(cfg, w) && Serving(w).Some? && Serving(w).value.Checked? && Accounted(g)
    requires var h := Serving(w).value;
             && ResolvesTo(w.gate, g, w.gate.nextEventID, h.event.opcode, h.effect) && Leaves(w, handlers, h.effect)
    ensures var v := w.(gate := g, handlers := handlers, outbox := outbox);
            && Shape(v) && ActorOk(cfg, v) && HandlersOk(cfg, v) && GenerationsOk(v)
            && StreamOk(cfg, v) && LoadsOk(v) && Serving(v).None?
  {
    var h := Serving(w).value;
    ScreenedShape(h.proposal, h.seen, h.snapshot.generation, h.wasActive, h.event.opcode);
  }

  lemma ResolvedView(cfg: Config, w: World, g: Gate, handlers: map<nat, Handler>, outbox: map<nat, Effect>)
    requires Good(cfg, w) && Sane(cfg) && Serving(w).Some? && Serving(w).value.Checked?
    requires var h := Serving(w).value;
             ResolvesTo(w.gate, g, w.gate.nextEventID, h.event.opcode, h.effect) && Delivered(w, g, h.effect, outbox)
    ensures ViewOk(cfg, w.(gate := g, handlers := handlers, outbox := outbox))
  {
    var h := Serving(w).value;
    ScreenedShape(h.proposal, h.seen, h.snapshot.generation, h.wasActive, h.event.opcode);
    EffectsRender(h.seen, h.proposal, h.snapshot.generation, h.wasActive, h.event.opcode);
    if !w.gate.terminal {
      EventKeepsStep(cfg.env, cfg.groups, w.view, h.seen, h.proposal, h.snapshot, h.wasActive, h.event.opcode,
                     w.gate.nextEventID);
    }
    HandedOut(cfg, w, g, handlers, h.event.opcode, h.effect, outbox);
  }

  lemma HandedOut(cfg: Config, w: World, g: Gate, handlers: map<nat, Handler>, opcode: Opcode, e: Effect,
                  outbox: map<nat, Effect>)
    requires ViewOk(cfg, w) && Shape(w) && ResolvesTo(w.gate, g, w.gate.nextEventID, opcode, e) && Renderable(e)
    requires Delivered(w, g, e, outbox) && (!w.gate.terminal && Relists(e) ==> !g.active)
    requires !w.gate.terminal ==>
               Tracks(cfg.env, cfg.groups, After(cfg.groups, w.view, e, w.gate.nextEventID), w.actor.current)
    ensures ViewOk(cfg, w.(gate := g, handlers := handlers, outbox := outbox))
  {
    assert Serving(w.(gate := g, handlers := handlers, outbox := outbox)).None?;
  }

  lemma ResolveHandlerShape(w: World, id: nat, g: Gate)
    requires id in w.handlers && w.handlers[id].Checked? && id == w.gate.nextEventID && id in w.gate.eventCancels
    requires var h := w.handlers[id];
             && g == Resolve(w.gate, id, h.event.opcode, Done(h.snapshot, h.effect))
             && ResolvesTo(w.gate, g, id, h.event.opcode, h.effect)
    ensures var h := w.handlers[id]; var v := ResolveHandler(w, id, h);
            && v == w.(gate := g, handlers := v.handlers, outbox := v.outbox)
            && Leaves(w, v.handlers, h.effect) && Delivered(w, g, h.effect, v.outbox)
  {
  }

  /** A successful, screened event is resolved: publication stops if it navigated, restored or emptied the list. */
  lemma CheckedResolveGood(cfg: Config, w: World, id: nat)
    requires Good(cfg, w) && Sane(cfg) && id in w.handlers && w.handlers[id].Checked?
    ensures Good(cfg, ResolveHandler(w, id, w.handlers[id]))
  {
    var h := w.handlers[id];
    assert Serving(w) == Some(h) && id == w.gate.nextEventID;
    var g := Resolve(w.gate, id, h.event.opcode, Done(h.snapshot, h.effect));
    ScreenedShape(h.proposal, h.seen, h.snapshot.generation, h.wasActive, h.event.opcode);
    ResolveAccounted(w.gate, id, h.event.opcode, Done(h.snapshot, h.effect));
    ResolveSummary(w.gate, id, h.event.opcode, h.snapshot, h.effect);
    ResolveHandlerShape(w, id, g);
    var v := ResolveHandler(w, id, h);
    ResolvedCore(cfg, w, g, v.handlers, v.outbox);
    ResolvedView(cfg, w, g, v.handlers, v.outbox);
  }

  lemma ScreenedGood(cfg: Config, w: World, id: nat)
    requires Good(cfg, w) && id in w.handlers && w.handlers[id].Returned?
    ensures Good(cfg, ScreenEffect(w, id, w.handlers[id]))
  {
    assert Serving(w) == Some(w.handlers[id]);
    HandlerOnlyGood(cfg, w, ScreenEffect(w, id, w.handlers[id]).handlers[id]);
  }

  lemma SettleGood(cfg: Config, w: World, m: Settle)
    requires Sane(cfg) && Good(cfg, w) && CanSettle(w, m)
    ensures Good(cfg, Settled(w, m))
  {
    match m
    case Screen(id) => ScreenedGood(cfg, w, id);
    case Resolution(id) =>
      if w.handlers[id].Checked? {
        CheckedResolveGood(cfg, w, id);
      } else {
        FailedGood(cfg, w, id);
      }
    case BaseUpdate(id) => BaseUpdatedGood(cfg, w, id);
  }

  lemma BaseUpdatedGood(cfg: Config, w: World, id: nat)
    requires Good(cfg, w) && id in w.handlers && w.handlers[id].Resolved?
    ensures Good(cfg, UpdateBase(w, id, w.handlers[id]))
  {
    assert Serving(UpdateBase(w, id, w.handlers[id])) == Serving(w);
  }

  // ----- every move

  /** Every move keeps the invariant. */
  lemma GoodKept(cfg: Config, w: World, m: Move)
    requires Sane(cfg) && Good(cfg, w) && Possible(w, m)
    ensures Good(cfg, Moved(cfg, w, m))
  {
    if m.Preparing? || m.Publishing? || m.Enriching? || m.Quitting? {
      CommitGood(cfg, w, m);
    } else {
      match m
      case Reserving(event) => ReservedGood(cfg, w, event);
      case Talking(talk) => TalkGood(cfg, w, talk);
      case Settling(settle) => SettleGood(cfg, w, settle);
      case Acknowledging(id) => EventFinalizationGood(cfg, w, id);
      case Loading(load) => LoadGood(cfg, w, load);
      case Calling(call) => CallGood(cfg, w, call);
      case ActorMove(step) => ActorMoveGood(cfg, w, step);
      case StreamClose =>
    }
  }

  /** The invariant holds in every state of every run. */
  lemma {:induction false} ReachableGood(cfg: Config, worlds: seq<World>, moves: seq<Move>, i: nat)
    requires Sane(cfg) && Run(cfg, worlds, moves) && i < |worlds|
    ensures Good(cfg, worlds[i])
  {
    if i == 0 {
      InitInv(cfg, worlds[0]);
    } else {
      ReachableGood(cfg, worlds, moves, i - 1);
      GoodKept(cfg, worlds[i - 1], moves[i - 1]);
    }
  }
}
