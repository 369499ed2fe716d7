/**
 The session actor (internal/session/actor.go). One iteration of the select loop is one step; `Next` gives the
 state after it. The last six fields of `ActorState` only record what happened.
 */
module Actor {
  import opened Basics
  import opened Protocol

  datatype ApplyCommand = ApplyCommand(id: nat, ctx: Ctx, proposal: Proposal)

  datatype Pending = Pending(id: nat, command: ApplyCommand, retiring: bool, replyErr: Option<Error>)

  datatype Reply = Done(snapshot: Snapshot, effect: Effect) | Failed(error: Error)

  datatype BuildOutcome = Built(records: seq<Record>) | BuildError

  datatype ActorState = ActorState(
    current: Snapshot,
    pending: Option<Pending>,
    replacement: Option<ApplyCommand>,
    shutdown: Option<Error>,
    closing: bool,
    nextID: nat,
    exited: bool,
    hasGenerator: bool,
    dead: set<Ctx>,                    // cancelled contexts
    builds: set<nat>,                  // generator goroutines that have not delivered their completion
    accepted: set<nat>,                // apply commands taken from the command channel
    answers: map<nat, seq<Reply>>,     // every reply sent to each of them
    cleanups: map<nat, nat>,           // how often each one's created tree was rolled back
    published: map<nat, seq<Record>>)  // the records of every generation ever current

  // ----- replies

  function Answers(s: ActorState, id: nat): seq<Reply> {
    if id in s.answers then s.answers[id] else []
  }

  function Cleanups(s: ActorState, id: nat): nat {
    if id in s.cleanups then s.cleanups[id] else 0
  }

  function Answer(s: ActorState, c: ApplyCommand, r: Reply): ActorState {
    s.(answers := s.answers[c.id := Answers(s, c.id) + [r]])
  }

  /** replyApplyError: roll the created tree back, then reply. */
  function Refuse(s: ActorState, c: ApplyCommand, e: Error): ActorState {
    Answer(s.(cleanups := s.cleanups[c.id := Cleanups(s, c.id) + 1]), c, Failed(e))
  }

  function Publish(s: ActorState, snapshot: Snapshot): ActorState {
    s.(current := snapshot, published := s.published[snapshot.generation := snapshot.records])
  }

  // ----- the select arms

  /** start: begin a transition when none is pending. */
  function Start(s: ActorState, c: ApplyCommand): ActorState {
    if c.ctx in s.dead then Refuse(s, c, Cause(c.ctx))
    else if c.proposal.base != s.current.generation then Refuse(s, c, StaleGeneration)
    else if c.proposal.build.None? then
      var snapshot := s.current.(state := c.proposal.state);
      Answer(s.(current := snapshot), c, Done(snapshot, c.proposal.effect))
    else if !s.hasGenerator then Refuse(s, c, NilGenerator)
    else if s.nextID == MAX_UINT64 then Refuse(s, c, GenerationLimit)
    else s.(nextID := s.nextID + 1, builds := s.builds + {s.nextID + 1},
            pending := Some(Pending(s.nextID + 1, c, false, None)))
  }

  function Retire(p: Pending, e: Error): Pending {
    p.(retiring := true, replyErr := Some(e))
  }

  /** The *applyCommand arm, for a command just taken from the channel. */
  function Receive(s: ActorState, c: ApplyCommand): ActorState {
    var s := s.(accepted := s.accepted + {c.id});
    if s.shutdown.Some? then Refuse(s, c, s.shutdown.value)
    else if c.ctx in s.dead then Refuse(s, c, Cause(c.ctx))
    else if c.proposal.base != s.current.generation then Refuse(s, c, StaleGeneration)
    else if s.pending.None? then Start(s, c)
    else if s.pending.value.retiring || s.replacement.Some? then Refuse(s, c, TransitionPending)
    else s.(pending := Some(Retire(s.pending.value, Superseded)), replacement := Some(c))
  }

  /** Why the *enrichCommand arm refuses, if it does. */
  function EnrichError(s: ActorState, ctx: Ctx, base: nat): Option<Error> {
    if s.shutdown.Some? then s.shutdown
    else if ctx in s.dead then Some(Cause(ctx))
    else if SessionCtx in s.dead then Some(Cause(SessionCtx))
    else if base != s.current.generation then Some(StaleGeneration)
    else if s.pending.Some? then Some(TransitionPending)
    else if s.nextID == MAX_UINT64 then Some(GenerationLimit)
    else None
  }

  function Enrich(s: ActorState, ctx: Ctx, base: nat, records: seq<Record>): ActorState {
    if EnrichError(s, ctx, base).Some? then s
    else Publish(s.(nextID := s.nextID + 1), Snapshot(s.nextID + 1, s.current.state, records))
  }

  /** The reply the pending command gets when its build ends, as the completionCommand arm decides it. */
  function Verdict(s: ActorState, p: Pending, outcome: BuildOutcome): Reply {
    if p.retiring then Failed(if p.replyErr.Some? then p.replyErr.value else Closed)
    else if p.command.ctx in s.dead then Failed(Cause(p.command.ctx))
    else if SessionCtx in s.dead then Failed(Cause(SessionCtx))
    else if outcome.BuildError? then Failed(BuildFailed)
    else if p.command.proposal.base != s.current.generation then Failed(StaleGeneration)
    else Done(Snapshot(p.id, p.command.proposal.state, outcome.records), p.command.proposal.effect.(reload := p.id))
  }

  function Settle(s: ActorState, p: Pending, reply: Reply): ActorState {
    var s := s.(pending := None);
    match reply
    case Failed(e) => Refuse(s, p.command, e)
    case Done(snapshot, _) => Answer(Publish(s, snapshot), p.command, reply)
  }

  function Complete(s: ActorState, id: nat, outcome: BuildOutcome): ActorState {
    var s := s.(builds := s.builds - {id});
    if s.pending.None? || id != s.pending.value.id then s
    else
      var t := Settle(s, s.pending.value, Verdict(s, s.pending.value, outcome));
      if t.replacement.Some? && t.shutdown.None? then Start(t.(replacement := None), t.replacement.value) else t
  }

  function RetirePending(s: ActorState, e: Error): ActorState {
    if s.pending.Some? && !s.pending.value.retiring then s.(pending := Some(Retire(s.pending.value, e))) else s
  }

  function CloseActor(s: ActorState): ActorState {
    if s.closing then s else RetirePending(s.(closing := true, shutdown := Some(Closed)), Closed)
  }

  function CallerDone(s: ActorState): ActorState
    requires s.pending.Some?
  {
    s.(pending := Some(Retire(s.pending.value, Cause(s.pending.value.command.ctx))))
  }

  function SessionDone(s: ActorState): ActorState {
    RetirePending(s.(shutdown := Some(Cause(SessionCtx))), Cause(SessionCtx))
  }

  /** The top of the loop once nothing is pending and shutdown has begun. */
  function Drain(s: ActorState): ActorState
    requires s.shutdown.Some?
  {
    var t := if s.replacement.Some? then Refuse(s.(replacement := None), s.replacement.value, s.shutdown.value) else s;
    t.(exited := true)
  }

  // ----- steps and runs

  datatype Step =
    | SApply(command: ApplyCommand)
    | SEnrich(ctx: Ctx, base: nat, records: seq<Record>)
    | SComplete(id: nat, outcome: BuildOutcome)
    | SClose
    | SCallerDone
    | SSessionDone
    | SDrain
    | SCancel(ctx: Ctx)

  /** The loop is about to leave rather than select. */
  predicate Draining(s: ActorState) {
    s.pending.None? && s.shutdown.Some?
  }

  predicate Selecting(s: ActorState) { !s.exited && !Draining(s) }

  predicate Enabled(s: ActorState, step: Step) {
    match step
    case SCancel(_) => true
    case SDrain => !s.exited && Draining(s)
    case SApply(c) => Selecting(s) && c.id !in s.accepted
    case SEnrich(_, _, _) => Selecting(s)
    case SComplete(id, _) => Selecting(s) && id in s.builds
    case SClose => Selecting(s)
    case SCallerDone =>
      Selecting(s) && s.pending.Some? && !s.pending.value.retiring && s.pending.value.command.ctx in s.dead
    case SSessionDone => Selecting(s) && s.shutdown.None? && SessionCtx in s.dead
  }

  function Next(s: ActorState, step: Step): ActorState
    requires Enabled(s, step)
  {
    match step
    case SApply(c) => Receive(s, c)
    case SEnrich(ctx, base, records) => Enrich(s, ctx, base, records)
    case SComplete(id, outcome) => Complete(s, id, outcome)
    case SClose => CloseActor(s)
    case SCallerDone => CallerDone(s)
    case SSessionDone => SessionDone(s)
    case SDrain => Drain(s)
    case SCancel(ctx) => s.(dead := s.dead + {ctx})
  }

  function Initial(hasGenerator: bool, state: State): ActorState {
    ActorState(Snapshot(0, state, []), None, None, None, false, 0, false, hasGenerator, {},
               {}, {}, map[], map[], map[0 := []])
  }

  /** A finite execution: states[i + 1] follows from states[i] by steps[i]. */
  ghost predicate Execution(states: seq<ActorState>, steps: seq<Step>) {
    && |states| == |steps| + 1
    && forall i {:trigger steps[i]} :: 0 <= i < |steps| ==>
         Enabled(states[i], steps[i]) && states[i + 1] == Next(states[i], steps[i])
  }

  // ----- the invariant

  /** Control: which transition is in progress and what it was based on. */
  ghost predicate Control(s: ActorState) {
    && s.current.generation <= s.nextID <= MAX_UINT64
    && (s.pending.None? ==> s.builds == {})
    && (s.pending.Some? ==>
          var p := s.pending.value;
          && p.id == s.nextID && s.current.generation < p.id
          && s.builds == {p.id}
          && p.command.proposal.base == s.current.generation
          && p.command.proposal.build.Some?
          && p.retiring == p.replyErr.Some?)
    && (s.replacement.Some? ==>
          && s.replacement.value.proposal.base == s.current.generation
          && (if s.pending.Some? then s.pending.value.retiring else s.shutdown.Some?))
    && (s.shutdown.Some? && s.pending.Some? ==> s.pending.value.retiring)
    && (s.closing ==> s.shutdown.Some?)
    && (s.shutdown.Some? ==> s.shutdown.value == Closed || s.shutdown.value == Cause(SessionCtx))
    && (s.exited ==> s.pending.None? && s.replacement.None? && s.shutdown.Some?)
  }

  predicate IsPending(s: ActorState, id: nat) { s.pending.Some? && s.pending.value.command.id == id }

  predicate IsReplacement(s: ActorState, id: nat) { s.replacement.Some? && s.replacement.value.id == id }

  /** Exactly one reply, and the created tree rolled back once if that reply is an error and never otherwise. */
  predicate Replied(s: ActorState, id: nat) {
    && |Answers(s, id)| == 1
    && Cleanups(s, id) == (if Answers(s, id)[0].Failed? then 1 else 0)
  }

  predicate Untouched(s: ActorState, id: nat) {
    Answers(s, id) == [] && Cleanups(s, id) == 0
  }

  /** Where one command is. */
  predicate Placed(s: ActorState, id: nat) {
    if id !in s.accepted then Untouched(s, id) && !IsPending(s, id) && !IsReplacement(s, id)
    else if IsPending(s, id) then Untouched(s, id) && !IsReplacement(s, id)
    else if IsReplacement(s, id) then Untouched(s, id)
    else Replied(s, id)
  }

  ghost predicate Conserved(s: ActorState) { forall id :: Placed(s, id) }

  ghost predicate History(s: ActorState) {
    && s.current.generation in s.published
    && s.published[s.current.generation] == s.current.records
    && forall g :: g in s.published ==> g <= s.current.generation
  }

  ghost predicate Inv(s: ActorState) { Control(s) && Conserved(s) && History(s) }

  lemma InitialInv(hasGenerator: bool, state: State)
    ensures Inv(Initial(hasGenerator, state))
  {
  }

  ghost predicate Sound(s: ActorState) { Control(s) && History(s) }

  lemma RefuseSound(s: ActorState, c: ApplyCommand, e: Error)
    requires Sound(s)
    ensures Sound(Refuse(s, c, e))
  {
  }

  lemma StartSound(s: ActorState, c: ApplyCommand)
    requires Sound(s) && s.pending.None? && s.replacement.None? && s.shutdown.None?
    ensures Sound(Start(s, c))
  {
  }

  lemma ReceiveSound(s: ActorState, c: ApplyCommand)
    requires Sound(s) && Selecting(s)
    ensures Sound(Receive(s, c))
  {
    var t := s.(accepted := s.accepted + {c.id});
    if t.shutdown.Some? {
      RefuseSound(t, c, t.shutdown.value);
    } else if c.ctx in t.dead {
      RefuseSound(t, c, Cause(c.ctx));
    } else if c.proposal.base != t.current.generation {
      RefuseSound(t, c, StaleGeneration);
    } else if t.pending.None? {
      StartSound(t, c);
    } else if t.pending.value.retiring || t.replacement.Some? {
      RefuseSound(t, c, TransitionPending);
    }
  }

  lemma SettleSound(s: ActorState, p: Pending, outcome: BuildOutcome)
    requires Sound(s) && s.pending == Some(p)
    ensures Sound(Settle(s.(builds := {}), p, Verdict(s, p, outcome)).(replacement := None))
    ensures s.replacement.Some? ==> Settle(s.(builds := {}), p, Verdict(s, p, outcome)).current == s.current
  {
  }

  /** The completion arm in a reachable state: settle the pending command, then perhaps start the replacement. */
  lemma CompleteShape(s: ActorState, id: nat, outcome: BuildOutcome)
    requires Control(s) && id in s.builds
    ensures s.pending.Some? && s.pending.value.id == id == s.nextID
    ensures var t := Settle(s.(builds := {}), s.pending.value, Verdict(s, s.pending.value, outcome));
            && t.replacement == s.replacement && t.shutdown == s.shutdown && t.pending.None?
            && Complete(s, id, outcome) ==
                 (if t.replacement.Some? && t.shutdown.None?
                  then Start(t.(replacement := None), t.replacement.value) else t)
  {
    assert s.builds - {id} == {};
  }

  lemma CompleteSound(s: ActorState, id: nat, outcome: BuildOutcome)
    requires Sound(s) && Selecting(s) && id in s.builds
    ensures Sound(Complete(s, id, outcome))
  {
    CompleteShape(s, id, outcome);
    var p := s.pending.value;
    SettleSound(s, p, outcome);
    var t := Settle(s.(builds := {}), p, Verdict(s, p, outcome));
    if t.replacement.Some? && t.shutdown.None? {
      StartSound(t.(replacement := None), t.replacement.value);
    } else {
      UnstartedSound(s, t);
    }
  }

  /** With no replacement to start, settling is all there is. */
  lemma UnstartedSound(s: ActorState, t: ActorState)
    requires Sound(s) && Sound(t.(replacement := None)) && t.replacement == s.replacement && t.shutdown == s.shutdown
    requires t.pending.None? && !t.exited && (t.replacement.Some? ==> t.shutdown.Some? && t.current == s.current)
    ensures Sound(t)
  {
  }

  lemma SoundKept(s: ActorState, step: Step)
    requires Sound(s) && Enabled(s, step)
    ensures Sound(Next(s, step))
  {
    match step
    case SApply(c) => ReceiveSound(s, c);
    case SComplete(id, outcome) => CompleteSound(s, id, outcome);
    case _ =>
  }

  // ----- conservation

  /** The command c is being decided: everyone but c is placed, and c has been taken but not yet answered. */
  ghost predicate Deciding(s: ActorState, c: ApplyCommand) {
    && (forall id :: id != c.id ==> Placed(s, id))
    && c.id in s.accepted && Untouched(s, c.id) && !IsPending(s, c.id) && !IsReplacement(s, c.id)
  }

  lemma RefuseDecides(s: ActorState, c: ApplyCommand, e: Error)
    requires Deciding(s, c)
    ensures Conserved(Refuse(s, c, e))
  {
    forall id ensures Placed(Refuse(s, c, e), id) {
      if id != c.id { assert Placed(s, id); }
    }
  }

  lemma AnswerDecides(s: ActorState, c: ApplyCommand, r: Reply)
    requires Deciding(s, c) && r.Done?
    ensures Conserved(Answer(s, c, r))
  {
    forall id ensures Placed(Answer(s, c, r), id) {
      if id != c.id { assert Placed(s, id); }
    }
  }

  lemma StartDecides(s: ActorState, c: ApplyCommand)
    requires Deciding(s, c) && s.pending.None?
    ensures Conserved(Start(s, c))
  {
    if c.ctx in s.dead {
      RefuseDecides(s, c, Cause(c.ctx));
    } else if c.proposal.base != s.current.generation {
      RefuseDecides(s, c, StaleGeneration);
    } else if c.proposal.build.None? {
      var snapshot := s.current.(state := c.proposal.state);
      DecidingElsewhere(s, s.(current := snapshot), c);
      AnswerDecides(s.(current := snapshot), c, Done(snapshot, c.proposal.effect));
    } else if !s.hasGenerator {
      RefuseDecides(s, c, NilGenerator);
    } else if s.nextID == MAX_UINT64 {
      RefuseDecides(s, c, GenerationLimit);
    } else {
      forall id ensures Placed(Start(s, c), id) {
        if id != c.id { assert Placed(s, id); }
      }
    }
  }

  /** Conservation does not look at the snapshot. */
  lemma DecidingElsewhere(s: ActorState, t: ActorState, c: ApplyCommand)
    requires Deciding(s, c)
    requires t.accepted == s.accepted && t.answers == s.answers && t.cleanups == s.cleanups
    requires t.pending == s.pending && t.replacement == s.replacement
    ensures Deciding(t, c)
  {
    forall id | id != c.id ensures Placed(t, id) { assert Placed(s, id); }
  }

  lemma ReceiveConserves(s: ActorState, c: ApplyCommand)
    requires Conserved(s) && Selecting(s) && c.id !in s.accepted
    ensures Conserved(Receive(s, c))
  {
    assert Placed(s, c.id);
    var t := s.(accepted := s.accepted + {c.id});
    forall id | id != c.id ensures Placed(t, id) { assert Placed(s, id); }
    if t.shutdown.Some? {
      RefuseDecides(t, c, t.shutdown.value);
    } else if c.ctx in t.dead {
      RefuseDecides(t, c, Cause(c.ctx));
    } else if c.proposal.base != t.current.generation {
      RefuseDecides(t, c, StaleGeneration);
    } else if t.pending.None? {
      StartDecides(t, c);
    } else if t.pending.value.retiring || t.replacement.Some? {
      RefuseDecides(t, c, TransitionPending);
    } else {
      forall id ensures Placed(Receive(s, c), id) {
        if id != c.id { assert Placed(t, id); }
      }
    }
  }

  lemma SettleConserves(s: ActorState, p: Pending, reply: Reply)
    requires Conserved(s) && s.pending == Some(p)
    ensures Conserved(Settle(s, p, reply))
  {
    assert Placed(s, p.command.id);
    var t := s.(pending := None);
    forall id | id != p.command.id ensures Placed(t, id) { assert Placed(s, id); }
    match reply
    case Failed(e) => RefuseDecides(t, p.command, e);
    case Done(snapshot, _) =>
      DecidingElsewhere(t, Publish(t, snapshot), p.command);
      AnswerDecides(Publish(t, snapshot), p.command, reply);
  }

  lemma CompleteConserves(s: ActorState, id: nat, outcome: BuildOutcome)
    requires Control(s) && Conserved(s) && id in s.builds
    ensures Conserved(Complete(s, id, outcome))
  {
    var u := s.(builds := s.builds - {id});
    forall n ensures Placed(u, n) { assert Placed(s, n); }
    SettleConserves(u, u.pending.value, Verdict(u, u.pending.value, outcome));
    var t := Settle(u, u.pending.value, Verdict(u, u.pending.value, outcome));
    if t.replacement.Some? && t.shutdown.None? {
      ReplacementLeaves(t);
      StartDecides(t.(replacement := None), t.replacement.value);
    }
  }

  lemma ReplacementLeaves(s: ActorState)
    requires Conserved(s) && s.replacement.Some? && s.pending.None?
    ensures Deciding(s.(replacement := None), s.replacement.value)
  {
    var c := s.replacement.value;
    assert Placed(s, c.id);
    forall id | id != c.id ensures Placed(s.(replacement := None), id) { assert Placed(s, id); }
  }

  lemma ConservedKept(s: ActorState, step: Step)
    requires Control(s) && Conserved(s) && Enabled(s, step)
    ensures Conserved(Next(s, step))
  {
    match step
    case SApply(c) => ReceiveConserves(s, c);
    case SComplete(id, outcome) => CompleteConserves(s, id, outcome);
    case SDrain => DrainConserves(s);
    case _ => ConservedElsewhere(s, Next(s, step));
  }

  lemma DrainConserves(s: ActorState)
    requires Conserved(s) && Draining(s)
    ensures Conserved(Drain(s))
  {
    if s.replacement.Some? {
      ReplacementLeaves(s);
      var t := s.(replacement := None);
      RefuseDecides(t, s.replacement.value, s.shutdown.value);
      ConservedElsewhere(Refuse(t, s.replacement.value, s.shutdown.value), Drain(s));
    } else {
      ConservedElsewhere(s, Drain(s));
    }
  }

  lemma ConservedElsewhere(s: ActorState, t: ActorState)
    requires Conserved(s)
    requires t.accepted == s.accepted && t.answers == s.answers && t.cleanups == s.cleanups
    requires t.replacement == s.replacement
    requires forall id :: IsPending(t, id) == IsPending(s, id)
    ensures Conserved(t)
  {
    forall id ensures Placed(t, id) { assert Placed(s, id); }
  }

  lemma InvKept(s: ActorState, step: Step)
    requires Inv(s) && Enabled(s, step)
    ensures Inv(Next(s, step))
  {
    SoundKept(s, step);
    ConservedKept(s, step);
  }

  lemma {:induction false} ReachableInv(states: seq<ActorState>, steps: seq<Step>, i: nat)
    requires Execution(states, steps) && Inv(states[0]) && i < |states|
    ensures Inv(states[i])
  {
    if i > 0 {
      ReachableInv(states, steps, i - 1);
      InvKept(states[i - 1], steps[i - 1]);
    }
  }
}
