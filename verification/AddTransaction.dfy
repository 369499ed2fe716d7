/**
 One call of Handle (internal/session/events.go:20-52), step by step, against the running actor and a filesystem
 nobody else writes to: whatever happens in between, an Add either ends in a published snapshot at the new directory
 or leaves no trace on disk.
 */
module AddTransaction {
  import opened Basics
  import opened Protocol
  import opened Events
  import opened FileTree
  import opened Actor
  import ActorRuns

  /** What is fixed for the call: its event, its context, the identity its command will have, and the faults. */
  datatype Call = Call(env: Env, event: Event, ctx: Ctx, id: nat, faults: Faults)

  datatype Phase =
    | Begun
    | Creating(snapshot: Snapshot)
    | Holding(base: Location, proposal: Proposal)
    | Sending(base: Location, proposal: Proposal)
    | Waiting(base: Location, proposal: Proposal)
    | Ended(error: Error)

  datatype World = World(actor: ActorState, nodes: Nodes, phase: Phase)

  datatype Move =
    | Internal(step: Step)                                 // anything the actor does that is not taking our command
    | Read                                                 // actor.Current, then Reduce
    | Create(tree: Option<CreatedTree>, nodes: Nodes)      // pathutil.CreateDirectoryTree
    | Check                                                // the context check after creation
    | Send                                                 // the actor takes our command
    | GiveUp(error: Error)                                 // Current or enqueue fails

  function CommandOf(call: Call, p: Proposal): ApplyCommand { ApplyCommand(call.id, call.ctx, p) }

  function Paths(p: Proposal): seq<Path> {
    if p.created.Some? then p.created.value.created else []
  }

  ghost predicate Possible(call: Call, w: World, move: Move) {
    match move
    case Internal(step) => Enabled(w.actor, step) && (step.SApply? ==> step.command.id != call.id)
    case Read => w.phase.Begun? && Selecting(w.actor)
    case Create(tree, nodes) =>
      && w.phase.Creating?
      && Outcome(w.nodes, call.faults, w.phase.snapshot.state.location, call.event.query, tree, nodes)
    case Check => w.phase.Holding?
    case Send => w.phase.Sending? && Enabled(w.actor, SApply(CommandOf(call, w.phase.proposal)))
    case GiveUp(_) => w.phase.Begun? || (w.phase.Sending? && (call.ctx in w.actor.dead || w.actor.exited))
  }

  /** The disk after the actor went from s to t: our tree is rolled back when the actor cleans it up. */
  function Disk(call: Call, p: Proposal, nodes: Nodes, s: ActorState, t: ActorState): Nodes {
    if Cleanups(t, call.id) > Cleanups(s, call.id) then RolledBack(nodes, Paths(p)) else nodes
  }

  function Decide(call: Call, snapshot: Snapshot): Phase {
    match Reduce(call.env, snapshot, call.event)
    case Err(e) => Ended(e)
    case Ok(Propose(p)) => Sending(snapshot.state.location, p)
    case Ok(AddIntent(_, _)) => Creating(snapshot)
  }

  function Moved(call: Call, w: World, move: Move): World
    requires Possible(call, w, move)
  {
    match move
    case Internal(step) =>
      var t := Next(w.actor, step);
      w.(actor := t, nodes := if w.phase.Waiting? then Disk(call, w.phase.proposal, w.nodes, w.actor, t) else w.nodes)
    case Read => w.(phase := Decide(call, w.actor.current))
    case Create(tree, nodes) =>
      var snapshot := w.phase.snapshot;
      var p := Submitted(call.env, snapshot, AddIntent(snapshot.state.location, call.event.query), tree);
      var base := snapshot.state.location;
      w.(nodes := nodes, phase := if tree.Some? then Holding(base, p) else Sending(base, p))
    case Check =>
      if call.ctx in w.actor.dead then
        w.(nodes := RolledBack(w.nodes, Paths(w.phase.proposal)), phase := Ended(Cause(call.ctx)))
      else w.(phase := Sending(w.phase.base, w.phase.proposal))
    case Send =>
      var p := w.phase.proposal;
      var t := Next(w.actor, SApply(CommandOf(call, p)));
      World(t, Disk(call, p, w.nodes, w.actor, t), Waiting(w.phase.base, p))
    case GiveUp(e) =>
      w.(nodes := if w.phase.Sending? then RolledBack(w.nodes, Paths(w.phase.proposal)) else w.nodes, phase := Ended(e))
  }

  ghost predicate Start(call: Call, w: World) {
    Inv(w.actor) && call.id !in w.actor.accepted && ParentClosed(w.nodes) && w.phase.Begun?
  }

  ghost predicate Run(call: Call, worlds: seq<World>, moves: seq<Move>) {
    && |worlds| == |moves| + 1
    && forall i {:trigger moves[i]} :: 0 <= i < |moves| ==>
         Possible(call, worlds[i], moves[i]) && worlds[i + 1] == Moved(call, worlds[i], moves[i])
  }

  // ----- following one command through the actor

  /** The snapshot of a success reply was published. */
  ghost predicate Published(s: ActorState, snapshot: Snapshot) {
    snapshot.generation in s.published && s.published[snapshot.generation] == snapshot.records
  }

  /** Wherever the actor holds c's identity it holds c, and a success reply to it published c's own state. */
  ghost predicate Tracked(s: ActorState, c: ApplyCommand) {
    && (IsPending(s, c.id) ==> s.pending.value.command == c)
    && (IsReplacement(s, c.id) ==> s.replacement.value == c)
    && TrackedAnswer(s, c)
  }

  ghost predicate TrackedAnswer(s: ActorState, c: ApplyCommand) {
    Answers(s, c.id) != [] && Answers(s, c.id)[0].Done? ==>
      Answers(s, c.id)[0].snapshot.state == c.proposal.state && Published(s, Answers(s, c.id)[0].snapshot)
  }

  /** d is c, not yet answered, or another command. */
  predicate Apart(s: ActorState, c: ApplyCommand, d: ApplyCommand) {
    d.id == c.id ==> d == c && Answers(s, c.id) == []
  }

  lemma RefuseTracked(s: ActorState, c: ApplyCommand, d: ApplyCommand, e: Error)
    requires Tracked(s, c) && Apart(s, c, d)
    ensures Tracked(Refuse(s, d, e), c)
  {
  }

  lemma StartTracked(s: ActorState, c: ApplyCommand, d: ApplyCommand)
    requires Tracked(s, c) && Sound(s) && Apart(s, c, d)
    ensures Tracked(Actor.Start(s, d), c)
  {
    if d.ctx in s.dead {
      RefuseTracked(s, c, d, Cause(d.ctx));
    } else if d.proposal.base != s.current.generation {
      RefuseTracked(s, c, d, StaleGeneration);
    } else if d.proposal.build.None? {
      assert Published(s, s.current);
    } else if !s.hasGenerator {
      RefuseTracked(s, c, d, NilGenerator);
    } else if s.nextID == MAX_UINT64 {
      RefuseTracked(s, c, d, GenerationLimit);
    }
  }

  lemma ReceiveTracked(s: ActorState, c: ApplyCommand, d: ApplyCommand)
    requires Tracked(s, c) && Inv(s) && Enabled(s, SApply(d)) && (d.id == c.id ==> d == c)
    ensures Tracked(Receive(s, d), c)
  {
    assert Placed(s, d.id);
    var t := s.(accepted := s.accepted + {d.id});
    if t.shutdown.Some? {
      RefuseTracked(t, c, d, t.shutdown.value);
    } else if d.ctx in t.dead {
      RefuseTracked(t, c, d, Cause(d.ctx));
    } else if d.proposal.base != t.current.generation {
      RefuseTracked(t, c, d, StaleGeneration);
    } else if t.pending.None? {
      StartTracked(t, c, d);
    } else if t.pending.value.retiring || t.replacement.Some? {
      RefuseTracked(t, c, d, TransitionPending);
    }
  }

  lemma SettleTracked(s: ActorState, c: ApplyCommand, outcome: BuildOutcome)
    requires Tracked(s, c) && Inv(s) && s.pending.Some?
    ensures var t := Settle(s.(builds := {}), s.pending.value, Verdict(s, s.pending.value, outcome));
            Tracked(t, c) && (IsReplacement(t, c.id) ==> Answers(t, c.id) == [])
  {
    assert Placed(s, c.id);
    ActorRuns.SettleLater(s, s.pending.value, outcome);
  }

  lemma CompleteTracked(s: ActorState, c: ApplyCommand, id: nat, outcome: BuildOutcome)
    requires Tracked(s, c) && Inv(s) && Enabled(s, SComplete(id, outcome))
    ensures Tracked(Complete(s, id, outcome), c)
  {
    CompleteShape(s, id, outcome);
    SettleTracked(s, c, outcome);
    SettleSound(s, s.pending.value, outcome);
    var t := Settle(s.(builds := {}), s.pending.value, Verdict(s, s.pending.value, outcome));
    if t.replacement.Some? && t.shutdown.None? {
      StartTracked(t.(replacement := None), c, t.replacement.value);
    }
  }

  lemma StepTracked(s: ActorState, c: ApplyCommand, step: Step)
    requires Tracked(s, c) && Inv(s) && Enabled(s, step)
    requires step.SApply? && step.command.id == c.id ==> step.command == c
    ensures Tracked(Next(s, step), c)
  {
    match step
    case SApply(d) => ReceiveTracked(s, c, d);
    case SComplete(id, outcome) => CompleteTracked(s, c, id, outcome);
    case SEnrich(_, _, _) => ActorRuns.StepLater(s, step);
    case _ =>
  }

  // ----- the invariant of the call

  /** The directories the proposal carries are exactly those missing on the way to where it wants to go. */
  ghost predicate Genuine(call: Call, before: Nodes, base: Location, p: Proposal) {
    p.created.Some? ==>
      && p.state.location == p.created.value.target
      && Created(before, base, call.event.query, p.created.value, WithDirectories(before, Paths(p)))
  }

  function Made(before: Nodes, p: Proposal): Nodes { WithDirectories(before, Paths(p)) }

  ghost predicate Transaction(call: Call, before: Nodes, w: World) {
    && Inv(w.actor) && ParentClosed(before)
    && (w.phase.Waiting? <==> call.id in w.actor.accepted)
    && match w.phase
       case Holding(base, p) => Genuine(call, before, base, p) && w.nodes == Made(before, p)
       case Sending(base, p) => Genuine(call, before, base, p) && w.nodes == Made(before, p)
       case Waiting(base, p) =>
         && Genuine(call, before, base, p) && Tracked(w.actor, CommandOf(call, p))
         && w.nodes == (if Cleanups(w.actor, call.id) == 0 then Made(before, p) else before)
       case _ => w.nodes == before
  }

  lemma GenuineRollsBack(call: Call, before: Nodes, base: Location, p: Proposal)
    requires ParentClosed(before) && Genuine(call, before, base, p)
    ensures RolledBack(Made(before, p), Paths(p)) == before
  {
    RollbackRestores(before, Paths(p));
  }

  lemma DiskKept(call: Call, before: Nodes, base: Location, p: Proposal, nodes: Nodes, s: ActorState, step: Step)
    requires ParentClosed(before) && Genuine(call, before, base, p)
    requires Inv(s) && Enabled(s, step)
    requires nodes == (if Cleanups(s, call.id) == 0 then Made(before, p) else before)
    ensures var t := Next(s, step);
            Disk(call, p, nodes, s, t) == (if Cleanups(t, call.id) == 0 then Made(before, p) else before)
  {
    var t := Next(s, step);
    InvKept(s, step);
    ActorRuns.StepFinal(s, step, call.id);
    assert Placed(s, call.id) && Placed(t, call.id);
    GenuineRollsBack(call, before, base, p);
  }

  lemma ReadCreatesNothing(env: Env, snapshot: Snapshot, event: Event)
    ensures var r := Reduce(env, snapshot, event);
            && (r.Ok? && r.value.Propose? ==> r.value.proposal.created.None?)
  {
  }

  lemma InternalKept(call: Call, before: Nodes, w: World, step: Step)
    requires Transaction(call, before, w) && Possible(call, w, Internal(step))
    ensures Transaction(call, before, Moved(call, w, Internal(step)))
  {
    InvKept(w.actor, step);
    ActorRuns.StepFinal(w.actor, step, call.id);
    if w.phase.Waiting? {
      StepTracked(w.actor, CommandOf(call, w.phase.proposal), step);
      DiskKept(call, before, w.phase.base, w.phase.proposal, w.nodes, w.actor, step);
    }
  }

  lemma SendKept(call: Call, before: Nodes, w: World)
    requires Transaction(call, before, w) && Possible(call, w, Send)
    ensures Transaction(call, before, Moved(call, w, Send))
  {
    var c := CommandOf(call, w.phase.proposal);
    var step := SApply(c);
    InvKept(w.actor, step);
    ActorRuns.StepFinal(w.actor, step, call.id);
    assert Placed(w.actor, call.id) && Placed(Next(w.actor, step), call.id);
    StepTracked(w.actor, c, step);
    DiskKept(call, before, w.phase.base, w.phase.proposal, w.nodes, w.actor, step);
  }

  lemma MoveKept(call: Call, before: Nodes, w: World, move: Move)
    requires Transaction(call, before, w) && Possible(call, w, move)
    ensures Transaction(call, before, Moved(call, w, move))
  {
    match move
    case Internal(step) => InternalKept(call, before, w, step);
    case Send => SendKept(call, before, w);
    case Read => ReadCreatesNothing(call.env, w.actor.current, call.event);
    case Create(_, _) =>
    case Check => GenuineRollsBack(call, before, w.phase.base, w.phase.proposal);
    case GiveUp(_) =>
      if w.phase.Sending? { GenuineRollsBack(call, before, w.phase.base, w.phase.proposal); }
  }

  lemma {:induction false} ReachableTransaction(call: Call, worlds: seq<World>, moves: seq<Move>, i: nat)
    requires Run(call, worlds, moves) && Start(call, worlds[0]) && i < |worlds|
    ensures Transaction(call, worlds[0].nodes, worlds[i])
  {
    if i > 0 {
      ReachableTransaction(call, worlds, moves, i - 1);
      MoveKept(call, worlds[0].nodes, worlds[i - 1], moves[i - 1]);
    }
  }

  /** Add is a transaction. In every state of every run: once the call has failed, before or inside the actor, the
      filesystem is what it was; once it succeeded with directories created, exactly the missing ones were added and
      the published snapshot is located at their end; a success without a creation touched nothing. */
  lemma AddIsTransaction(call: Call, worlds: seq<World>, moves: seq<Move>, i: nat)
    requires Run(call, worlds, moves) && Start(call, worlds[0]) && i < |worlds|
    ensures var before, w := worlds[0].nodes, worlds[i];
            && (w.phase.Ended? ==> w.nodes == before)
            && (w.phase.Waiting? && Answers(w.actor, call.id) != [] ==>
                  && |Answers(w.actor, call.id)| == 1
                  && match Answers(w.actor, call.id)[0]
                     case Failed(_) => w.nodes == before
                     case Done(snapshot, _) =>
                       && Published(w.actor, snapshot)
                       && (w.phase.proposal.created.None? ==> w.nodes == before)
                       && (w.phase.proposal.created.Some? ==>
                             var start, names := CleanPath(w.phase.base.path), Fields(call.event.query);
                             && snapshot.state.location == Filesystem(PathBytes(JoinAll(start, names)))
                             && w.nodes == WithDirectories(before, Missing(before, start, names))))
            && (w.nodes == before || (w.phase.Holding? || w.phase.Sending? || w.phase.Waiting?))
  {
    ReachableTransaction(call, worlds, moves, i);
    assert Placed(worlds[i].actor, call.id);
  }
}
