/**
 The composition: session actor, coordinator, fzf input stream, event handlers, load handlers and the commit of the
 zoxide result, interleaved step by step. Every critical section, actor iteration and stream operation is one step;
 cancellation, Stop, stream closure and the outcome of builds are up to the environment.
 */
module Composition {
  import opened Basics
  import opened Protocol
  import opened Actor
  import opened Gate
  import opened Events
  import opened Render
  import opened InputStream
  import Codec
  import Merge

  /** What one session is started with: initial listing and zoxide rows (already with compacted displays). */
  datatype Config = Config(
    env: Env, groups: Groups, clean: Bytes -> Bytes, picker: Picker, home: Location,
    base: seq<Record>, source: seq<Record>)

  /** HandleEvent after its reservation: before actor.Current, before actor.Apply, inside it, after it, after
      suppressActiveRestore, and after resolveEvent with setBaseGeneration still to do. Erred has only resolveEvent
      left. */
  datatype Handler =
    | Reserved(event: Event)
    | Proposed(event: Event, seen: Snapshot, proposal: Proposal)
    | Waiting(event: Event, seen: Snapshot, proposal: Proposal)
    | Returned(event: Event, seen: Snapshot, proposal: Proposal, snapshot: Snapshot, effect: Effect)
    | Checked(event: Event, seen: Snapshot, proposal: Proposal, snapshot: Snapshot, effect: Effect, wasActive: bool)
    | Erred(event: Event, error: Error)
    | Resolved(generation: nat)

  /** LoadGeneration after ValidateLoad, and after the snapshot has been framed. */
  datatype Load = Validated(event: nat, generation: nat) | Framed(event: nat, generation: nat, data: Bytes)

  datatype Served = Served(event: nat, generation: nat, data: Bytes)

  /** commit: begun, base generation read, merge done, stream locked, active flag checked, enrichment published but not
      written yet, nothing left but finishCommit. */
  datatype Commit =
    | Idle
    | Begun
    | BaseRead(base: nat)
    | Merging(base: nat, merged: seq<Record>, admitted: seq<Record>)
    | Locked(base: nat, merged: seq<Record>, admitted: seq<Record>)
    | Cleared(base: nat, merged: seq<Record>, admitted: seq<Record>)
    | Published(generation: nat, admitted: seq<Record>)
    | Ending(published: Option<nat>)
    | Over

  /** The last five fields only record what happened: effects returned to the callback, what fzf shows, loads served,
      whether a navigation was published, and the generation an enrichment was published as. */
  datatype World = World(
    actor: ActorState, gate: Gate, stream: Stream,
    handlers: map<nat, Handler>, loads: map<nat, Load>, commit: Commit,
    outbox: map<nat, Effect>, view: View, served: seq<Served>, navigated: bool, enriched: Option<nat>)

  // ----- moves

  /** A handler talking to the actor. */
  datatype Talk =
    | ReadCurrent(id: nat, created: Option<CreatedTree>)
    | GiveUp(id: nat, error: Error)
    | Submit(id: nat)
    | Collect(id: nat)

  /** A handler coming to its end. */
  datatype Settle = Screen(id: nat) | Resolution(id: nat) | BaseUpdate(id: nat)

  /** The commit: taking its base, publishing, and ending. */
  datatype Prepare = CommitStart | CommitReadBase | CommitSnapshot

  datatype Publication = CommitLock | CommitCheck | CommitGiveUp | CommitWrite

  datatype Quit = CommitSkip(cause: set<Error>) | CommitAbandon | CommitFinish(cause: set<Error>)

  /** Other callers of the gate. */
  datatype Call =
    | Activation
    | Stopping(cause: set<Error>)
    | ParentCancellation(reason: Error)
    | WaitReturn

  /** LoadGeneration, and the callback that reports it written. */
  datatype LoadMove =
    | LoadValidation(thread: nat, id: nat, generation: nat)
    | LoadRead(thread: nat)
    | LoadStart(thread: nat)
    | LoadFinalization(id: nat)

  datatype Move =
    | Reserving(event: Event)
    | Talking(talk: Talk)
    | Settling(settle: Settle)
    | Acknowledging(id: nat)
    | Loading(load: LoadMove)
    | Preparing(prepare: Prepare)
    | Publishing(publication: Publication)
    | Enriching
    | Quitting(quit: Quit)
    | Calling(call: Call)
    | ActorMove(step: Step)
    | StreamClose

  /** The actor's own moves; commands reach it through the other steps. */
  predicate Internal(step: Step) { !step.SApply? && !step.SEnrich? }

  predicate HandlerAt(w: World, id: nat) { id in w.handlers }

  predicate Possible(w: World, m: Move) {
    match m
    case Reserving(_) => w.gate.activated && CanReserve(w.gate)
    case Talking(talk) => CanTalk(w, talk)
    case Settling(settle) => CanSettle(w, settle)
    case Acknowledging(_) => true
    case Loading(load) => CanLoad(w, load)
    case Preparing(prepare) => CanPrepare(w, prepare)
    case Publishing(publication) => CanPublish(w, publication)
    case Enriching => w.commit.Cleared? && Selecting(w.actor)
    case Quitting(quit) => CanQuit(w, quit)
    case Calling(call) => CanCall(w, call)
    case ActorMove(step) => Internal(step) && Enabled(w.actor, step)
    case StreamClose => !w.stream.held
  }

  predicate CanTalk(w: World, m: Talk) {
    && HandlerAt(w, m.id)
    && match m
       case ReadCurrent(id, _) => w.handlers[id].Reserved? && Selecting(w.actor)
       case GiveUp(id, _) => w.handlers[id].Reserved? || w.handlers[id].Proposed?
       case Submit(id) => w.handlers[id].Proposed? && Selecting(w.actor) && id !in w.actor.accepted
       case Collect(id) => w.handlers[id].Waiting? && Answers(w.actor, id) != []
  }

  predicate CanSettle(w: World, m: Settle) {
    && HandlerAt(w, m.id)
    && match m
       case Screen(id) => w.handlers[id].Returned?
       case Resolution(id) => w.handlers[id].Checked? || w.handlers[id].Erred?
       case BaseUpdate(id) => w.handlers[id].Resolved?
  }

  predicate CanPrepare(w: World, m: Prepare) {
    match m
    case CommitStart => w.commit.Idle? && w.gate.activated && CanCommit(w.gate)
    case CommitReadBase => w.commit.Begun?
    case CommitSnapshot => w.commit.BaseRead? && Selecting(w.actor) && w.actor.shutdown.None?
                           && SourceCtx !in w.actor.dead && w.actor.current.generation == w.commit.base
  }

  predicate CanPublish(w: World, m: Publication) {
    match m
    case CommitLock => w.commit.Merging? && !w.stream.held
    case CommitCheck => w.commit.Locked?
    case CommitGiveUp => w.commit.Cleared?
    case CommitWrite => w.commit.Published?
  }

  predicate CanQuit(w: World, m: Quit) {
    match m
    case CommitSkip(_) => w.commit.Idle?
    case CommitAbandon => w.commit.BaseRead?
    case CommitFinish(_) => w.commit.Ending?
  }

  predicate CanCall(w: World, m: Call) {
    match m
    case Activation => CanActivate(w.gate, w.actor.current.generation)
    case WaitReturn => w.commit.Idle? || w.commit.Over?
    case _ => true
  }

  predicate CanLoad(w: World, m: LoadMove) {
    match m
    case LoadValidation(thread, id, generation) => thread !in w.loads && CheckLoad(w.gate, id, generation).LoadReady?
    case LoadRead(thread) => thread in w.loads && w.loads[thread].Validated? && Selecting(w.actor)
    case LoadStart(thread) => thread in w.loads && w.loads[thread].Framed?
    case LoadFinalization(_) => true
  }

  function With(w: World, id: nat, h: Handler): World { w.(handlers := w.handlers[id := h]) }

  function ReserveEvent(w: World, event: Event): World {
    With(w.(gate := Reserve(w.gate)), w.gate.nextEventID + 1, Reserved(event))
  }

  /** setBaseGeneration, the last thing HandleEvent does after a navigation. */
  function UpdateBase(w: World, id: nat, h: Handler): World
    requires h.Resolved?
  {
    w.(gate := SetBase(w.gate, h.generation), handlers := w.handlers - {id})
  }

  /** actor.Current, Reduce, and the directory creation an Add asks for. */
  function ReadAndReduce(cfg: Config, w: World, id: nat, event: Event, created: Option<CreatedTree>): World {
    var reduction := Reduce(cfg.env, w.actor.current, event);
    if reduction.Err? then With(w, id, Erred(event, reduction.error))
    else With(w, id, Proposed(event, w.actor.current, Submitted(cfg.env, w.actor.current, reduction.value, created)))
  }

  function CommandOf(id: nat, p: Proposal): ApplyCommand { ApplyCommand(id, CallerCtx(id), p) }

  function SubmitProposal(w: World, id: nat, h: Handler): World
    requires h.Proposed?
  {
    With(w.(actor := Receive(w.actor, CommandOf(id, h.proposal))), id, Waiting(h.event, h.seen, h.proposal))
  }

  /** suppressActiveRestore. */
  function ScreenEffect(w: World, id: nat, h: Handler): World
    requires h.Returned?
  {
    With(w, id, Checked(h.event, h.seen, h.proposal, h.snapshot,
                        Screened(w.gate.active, h.event.opcode, h.effect), w.gate.active))
  }

  function CollectReply(w: World, id: nat, h: Handler): World
    requires h.Waiting? && Answers(w.actor, id) != []
  {
    match Answers(w.actor, id)[0]
    case Failed(e) => With(w, id, Erred(h.event, e))
    case Done(snapshot, effect) => With(w, id, Returned(h.event, h.seen, h.proposal, snapshot, effect))
  }

  /** resolveEvent, and the update of baseGeneration HandleEvent still owes after a navigation. */
  function ResolveHandler(w: World, id: nat, h: Handler): World
    requires h.Checked? || h.Erred?
  {
    var reply := if h.Checked? then Done(h.snapshot, h.effect) else Failed(h.error);
    var gate := Resolve(w.gate, id, h.event.opcode, reply);
    var owes := h.Checked? && Acknowledged(w.gate, id, reply) && h.effect.reload != 0;
    w.(gate := gate,
       handlers := if owes then w.handlers[id := Resolved(h.snapshot.generation)] else w.handlers - {id},
       outbox := if h.Checked? && Acknowledged(w.gate, id, reply) then w.outbox[id := h.effect] else w.outbox)
  }

  /** fzf performed the actions of the event's effect before this acknowledgement. */
  function FinalizeHandled(cfg: Config, w: World, id: nat): World {
    var first := id in w.gate.pendingEvents && !w.gate.pendingEvents[id].finalized && id in w.outbox;
    w.(gate := FinalizeEvent(w.gate, id),
       view := if first then After(cfg.groups, w.view, w.outbox[id], id) else w.view)
  }

  function ReadLoad(w: World, thread: nat, l: Load): World {
    if w.actor.shutdown.None? && w.actor.current.generation == l.generation then
      w.(loads := w.loads[thread := Framed(l.event, l.generation, Codec.Frame(w.actor.current.records))])
    else w.(loads := w.loads - {thread})
  }

  function StartLoad(w: World, thread: nat, l: Load): World
    requires l.Framed?
  {
    var w := w.(loads := w.loads - {thread});
    if CheckLoad(w.gate, l.event, l.generation).LoadReady? then
      w.(gate := BeginLoad(w.gate, l.event), served := w.served + [Served(l.event, l.generation, l.data)])
    else w
  }

  function MergeSnapshot(cfg: Config, w: World, base: nat): World {
    var merged := Merge.Merged(cfg.clean, w.actor.current.records, cfg.source);
    var admitted := Merge.Admitted(cfg.clean, w.actor.current.records, cfg.source);
    w.(commit := if admitted == [] then Ending(None) else Merging(base, merged, admitted))
  }

  function LockStream(w: World, c: Commit): World
    requires c.Merging?
  {
    if w.stream.closed then w.(commit := Ending(None))
    else w.(commit := Locked(c.base, c.merged, c.admitted), stream := Taken(w.stream))
  }

  function Unlock(w: World): World { w.(commit := Ending(None), stream := Freed(w.stream)) }

  function CheckActive(w: World, c: Commit): World
    requires c.Locked?
  {
    if w.gate.active && !w.gate.terminal then w.(commit := Cleared(c.base, c.merged, c.admitted)) else Unlock(w)
  }

  function CallEnrich(w: World, c: Commit): World
    requires c.Cleared?
  {
    if EnrichError(w.actor, SourceCtx, c.base).Some? then Unlock(w)
    else
      var actor := Enrich(w.actor, SourceCtx, c.base, c.merged);
      w.(actor := actor, enriched := Some(actor.current.generation),
         commit := Published(actor.current.generation, c.admitted))
  }

  function WriteFrames(w: World, c: Commit): World
    requires c.Published?
  {
    w.(stream := Extended(w.stream, Codec.Frame(c.admitted)), commit := Ending(Some(c.generation)))
  }

  /** The snapshot read failed: finish, after the base update the source makes when it sees a newer generation. */
  function AbandonCommit(w: World, base: nat): World {
    w.(commit := Ending(None),
       gate := if w.actor.current.generation > base then SetBase(w.gate, w.actor.current.generation) else w.gate)
  }

  function MoveActor(w: World, step: Step): World
    requires Enabled(w.actor, step)
  {
    var actor := Next(w.actor, step);
    w.(actor := actor, navigated := w.navigated || actor.current.generation != w.actor.current.generation)
  }

  function Talked(cfg: Config, w: World, m: Talk): World
    requires CanTalk(w, m)
  {
    match m
    case ReadCurrent(id, created) => ReadAndReduce(cfg, w, id, w.handlers[id].event, created)
    case GiveUp(id, error) => With(w, id, Erred(w.handlers[id].event, error))
    case Submit(id) => SubmitProposal(w, id, w.handlers[id])
    case Collect(id) => CollectReply(w, id, w.handlers[id])
  }

  function Settled(w: World, m: Settle): World
    requires CanSettle(w, m)
  {
    match m
    case Screen(id) => ScreenEffect(w, id, w.handlers[id])
    case Resolution(id) => ResolveHandler(w, id, w.handlers[id])
    case BaseUpdate(id) => UpdateBase(w, id, w.handlers[id])
  }

  function Prepared(cfg: Config, w: World, m: Prepare): World
    requires CanPrepare(w, m)
  {
    match m
    case CommitStart => w.(gate := BeginCommit(w.gate), commit := Begun)
    case CommitReadBase => w.(commit := BaseRead(w.gate.baseGeneration))
    case CommitSnapshot => MergeSnapshot(cfg, w, w.commit.base)
  }

  function PublishMoved(w: World, m: Publication): World
    requires CanPublish(w, m)
  {
    match m
    case CommitLock => LockStream(w, w.commit)
    case CommitCheck => CheckActive(w, w.commit)
    case CommitGiveUp => Unlock(w)
    case CommitWrite => WriteFrames(w, w.commit)
  }

  function QuitMoved(w: World, m: Quit): World
    requires CanQuit(w, m)
  {
    match m
    case CommitSkip(cause) => w.(gate := Deactivate(w.gate, cause), commit := Over)
    case CommitAbandon => AbandonCommit(w, w.commit.base)
    case CommitFinish(cause) => w.(gate := FinishCommit(w.gate, w.commit.published, cause), commit := Over)
  }

  function Called(w: World, m: Call): World
    requires CanCall(w, m)
  {
    match m
    case Activation => w.(gate := Activate(w.gate, w.actor.current.generation))
    case Stopping(cause) => w.(gate := Stop(w.gate, cause))
    case ParentCancellation(reason) => w.(gate := CancelParent(w.gate, reason))
    case WaitReturn => w.(gate := FinishWait(w.gate))
  }

  function LoadMoved(w: World, m: LoadMove): World
    requires CanLoad(w, m)
  {
    match m
    case LoadValidation(thread, id, generation) => w.(loads := w.loads[thread := Validated(id, generation)])
    case LoadRead(thread) => ReadLoad(w, thread, w.loads[thread])
    case LoadStart(thread) => StartLoad(w, thread, w.loads[thread])
    case LoadFinalization(id) => w.(gate := FinalizeLoad(w.gate, id))
  }

  function Moved(cfg: Config, w: World, m: Move): World
    requires Possible(w, m)
  {
    match m
    case Reserving(event) => ReserveEvent(w, event)
    case Talking(talk) => Talked(cfg, w, talk)
    case Settling(settle) => Settled(w, settle)
    case Acknowledging(id) => FinalizeHandled(cfg, w, id)
    case Loading(load) => LoadMoved(w, load)
    case Preparing(prepare) => Prepared(cfg, w, prepare)
    case Publishing(publication) => PublishMoved(w, publication)
    case Enriching => CallEnrich(w, w.commit)
    case Quitting(quit) => QuitMoved(w, quit)
    case Calling(call) => Called(w, call)
    case ActorMove(step) => MoveActor(w, step)
    case StreamClose => w.(stream := Shut(w.stream))
  }

  /** The wiring of run.go: the initial generation is published and streamed, nothing else has happened. */
  ghost predicate Init(cfg: Config, w: World) {
    && Inv(w.actor) && w.actor.pending.None? && w.actor.replacement.None? && w.actor.accepted <= {0}
    && w.actor.current.generation > 0 && w.actor.current.records == cfg.base
    && StateOk(w.actor.current.state) && w.actor.current.state.mode == Insert
    && w.actor.current.state.picker == cfg.picker && w.actor.current.state.home == cfg.home
    && w.gate == NewGate()
    && w.stream == Stream(Codec.Frame(cfg.base), false, false)
    && w.handlers == map[] && w.loads == map[] && w.commit == Idle
    && w.view == StartView(cfg.groups, Header(cfg.env, w.actor.current.state))
    && w.outbox == map[] && w.served == [] && !w.navigated && w.enriched.None?
  }

  /** A finite run from the start: worlds[i + 1] follows from worlds[i] by moves[i]. */
  ghost predicate Run(cfg: Config, worlds: seq<World>, moves: seq<Move>) {
    && |worlds| == |moves| + 1
    && Init(cfg, worlds[0])
    && forall i {:trigger moves[i]} :: 0 <= i < |moves| ==>
         Possible(worlds[i], moves[i]) && worlds[i + 1] == Moved(cfg, worlds[i], moves[i])
  }
}
