/** What every execution of the session actor guarantees. */
module ActorRuns {
  import opened Basics
  import opened Protocol
  import opened Actor

  // ----- conservation

  /** In every reachable state each accepted command is pending, or replacement, or replied exactly once; when the
      loop has exited every accepted command is replied and no build goroutine is left. */
  lemma Conservation(states: seq<ActorState>, steps: seq<Step>, i: nat, hasGenerator: bool, state: State, id: nat)
    requires Execution(states, steps) && states[0] == Initial(hasGenerator, state) && i < |states|
    ensures Placed(states[i], id)
    ensures states[i].exited ==> states[i].builds == {} && (id in states[i].accepted ==> Replied(states[i], id))
  {
    InitialInv(hasGenerator, state);
    ReachableInv(states, steps, i);
  }

  // ----- publication safety

  /** s2 is a possible later state than s1 as far as publication is concerned. */
  ghost predicate Later(s1: ActorState, s2: ActorState) {
    && s1.current.generation <= s2.current.generation
    && (forall g :: g in s1.published ==> g in s2.published && s2.published[g] == s1.published[g])
    && (s1.shutdown.Some? ==> s2.shutdown.Some? && s2.current == s1.current)
    && s1.nextID <= s2.nextID
    && s1.accepted <= s2.accepted
    && s1.dead <= s2.dead
  }

  lemma StartLater(s: ActorState, c: ApplyCommand)
    requires Sound(s) && s.shutdown.None?
    ensures Later(s, Start(s, c))
  {
  }

  lemma SettleLater(s: ActorState, p: Pending, outcome: BuildOutcome)
    requires Sound(s) && s.pending == Some(p)
    ensures Later(s, Settle(s.(builds := {}), p, Verdict(s, p, outcome)))
  {
  }

  lemma LaterTrans(s1: ActorState, s2: ActorState, s3: ActorState)
    requires Later(s1, s2) && Later(s2, s3)
    ensures Later(s1, s3)
  {
  }

  lemma CompleteLater(s: ActorState, id: nat, outcome: BuildOutcome)
    requires Sound(s) && Selecting(s) && id in s.builds
    ensures Later(s, Complete(s, id, outcome))
  {
    CompleteShape(s, id, outcome);
    var p := s.pending.value;
    SettleSound(s, p, outcome);
    SettleLater(s, p, outcome);
    var t := Settle(s.(builds := {}), p, Verdict(s, p, outcome));
    if t.replacement.Some? && t.shutdown.None? {
      StartLater(t.(replacement := None), t.replacement.value);
      LaterTrans(s, t.(replacement := None), Complete(s, id, outcome));
    }
  }

  lemma ReceiveLater(s: ActorState, c: ApplyCommand)
    requires Sound(s) && Selecting(s)
    ensures Later(s, Receive(s, c))
  {
    var t := s.(accepted := s.accepted + {c.id});
    if s.shutdown.None? && s.pending.None? { StartLater(t, c); }
  }

  lemma StepLater(s: ActorState, step: Step)
    requires Sound(s) && Enabled(s, step)
    ensures Later(s, Next(s, step))
  {
    match step
    case SApply(c) => ReceiveLater(s, c);
    case SComplete(id, outcome) => CompleteLater(s, id, outcome);
    case _ =>
  }

  /** Over any part of any run: generations never go back, a generation's records never change, and from the moment
      shutdown begins the snapshot is frozen. */
  lemma {:induction false} PublicationSafety(states: seq<ActorState>, steps: seq<Step>, i: nat, j: nat)
    requires Execution(states, steps) && Inv(states[0]) && i <= j < |states|
    ensures Later(states[i], states[j])
    ensures states[i].current.generation == states[j].current.generation ==>
              states[i].current.records == states[j].current.records
  {
    if i < j {
      PublicationSafety(states, steps, i, j - 1);
      RunLater(states, steps, j - 1);
      LaterTrans(states[i], states[j - 1], states[j]);
    }
    if states[i].current.generation == states[j].current.generation {
      SameGenerationSameRecords(states, steps, i, j);
    }
  }

  lemma RunLater(states: seq<ActorState>, steps: seq<Step>, i: nat)
    requires Execution(states, steps) && Inv(states[0]) && i < |steps|
    ensures Later(states[i], states[i + 1])
  {
    ReachableInv(states, steps, i);
    StepLater(states[i], steps[i]);
  }

  lemma SameGenerationSameRecords(states: seq<ActorState>, steps: seq<Step>, i: nat, j: nat)
    requires Execution(states, steps) && Inv(states[0]) && i < |states| && j < |states| && Later(states[i], states[j])
    requires states[i].current.generation == states[j].current.generation
    ensures states[i].current.records == states[j].current.records
  {
    ReachableInv(states, steps, i);
    ReachableInv(states, steps, j);
  }

  /** A step that changes the records takes a generation larger than every one published or reserved before it. */
  lemma FreshGeneration(s: ActorState, step: Step)
    requires Inv(s) && Enabled(s, step)
    requires var t := Next(s, step).current;
             t.generation != s.current.generation || t.records != s.current.records
    ensures step.SEnrich? || step.SComplete?
    ensures var g := Next(s, step).current.generation;
            && s.current.generation < g <= MAX_UINT64
            && g !in s.published
            && (step.SEnrich? ==> g == s.nextID + 1)
            && (step.SComplete? ==> g == step.id == s.nextID)
  {
    match step
    case SApply(c) => StartKeepsRecords(s.(accepted := s.accepted + {c.id}), c);
    case SComplete(id, outcome) =>
      CompleteShape(s, id, outcome);
      var t := Settle(s.(builds := {}), s.pending.value, Verdict(s, s.pending.value, outcome));
      if t.replacement.Some? && t.shutdown.None? {
        StartKeepsRecords(t.(replacement := None), t.replacement.value);
      }
    case _ =>
  }

  lemma StartKeepsRecords(s: ActorState, c: ApplyCommand)
    ensures Start(s, c).current.generation == s.current.generation
    ensures Start(s, c).current.records == s.current.records
  {
  }

  // ----- what a reply means

  /** A success reply to c sent by this step: the snapshot in it is the new current one, carries exactly c's state,
      and was computed against the generation c named. */
  ghost predicate Honest(s: ActorState, t: ActorState, c: ApplyCommand, r: Reply) {
    r.Done? ==>
      && t.current == r.snapshot
      && r.snapshot.state == c.proposal.state
      && c.proposal.base == s.current.generation
      && (c.proposal.build.None? ==>
            && r.snapshot.generation == s.current.generation && r.snapshot.records == s.current.records
            && r.effect == c.proposal.effect)
      && (c.proposal.build.Some? ==>
            && s.current.generation < r.snapshot.generation
            && r.effect == c.proposal.effect.(reload := r.snapshot.generation))
  }

  ghost predicate HonestReplies(s: ActorState, t: ActorState, c: ApplyCommand) {
    forall r :: r in Answers(t, c.id) ==> Honest(s, t, c, r) && (r.Failed? ==> t.current == s.current)
  }

  lemma RefuseHonest(s: ActorState, c: ApplyCommand, e: Error)
    requires Untouched(s, c.id)
    ensures Answers(Refuse(s, c, e), c.id) == [Failed(e)] && HonestReplies(s, Refuse(s, c, e), c)
  {
  }

  lemma StartHonest(s: ActorState, c: ApplyCommand)
    requires s.pending.None? && Untouched(s, c.id)
    ensures IsPending(Start(s, c), c.id) || |Answers(Start(s, c), c.id)| == 1
    ensures HonestReplies(s, Start(s, c), c)
  {
    if c.ctx in s.dead {
      RefuseHonest(s, c, Cause(c.ctx));
    } else if c.proposal.base != s.current.generation {
      RefuseHonest(s, c, StaleGeneration);
    } else if c.proposal.build.None? {
    } else if !s.hasGenerator {
      RefuseHonest(s, c, NilGenerator);
    } else if s.nextID == MAX_UINT64 {
      RefuseHonest(s, c, GenerationLimit);
    }
  }

  /** A command is answered at once or held, and every answer is honest. */
  lemma ReceiveHonest(s: ActorState, c: ApplyCommand)
    requires Inv(s) && Enabled(s, SApply(c))
    ensures var t := Receive(s, c);
            && (IsPending(t, c.id) || IsReplacement(t, c.id) || |Answers(t, c.id)| == 1)
            && HonestReplies(s, t, c)
  {
    assert Placed(s, c.id);
    var t := s.(accepted := s.accepted + {c.id});
    if t.shutdown.Some? {
      RefuseHonest(t, c, t.shutdown.value);
    } else if c.ctx in t.dead {
      RefuseHonest(t, c, Cause(c.ctx));
    } else if c.proposal.base != t.current.generation {
      RefuseHonest(t, c, StaleGeneration);
    } else if t.pending.None? {
      StartHonest(t, c);
    } else if t.pending.value.retiring || t.replacement.Some? {
      RefuseHonest(t, c, TransitionPending);
    }
  }

  lemma CompleteHonest(s: ActorState, id: nat, outcome: BuildOutcome)
    requires Inv(s) && Enabled(s, SComplete(id, outcome)) && s.replacement.None?
    ensures var t := Complete(s, id, outcome);
            var c := s.pending.value.command;
            && t.pending.None?
            && Answers(t, c.id) == [Verdict(s, s.pending.value, outcome)]
            && HonestReplies(s, t, c)
  {
    assert Placed(s, s.pending.value.command.id);
  }

  /** The same when a replacement waits: the superseded command is refused with the error it was retired with, the
      replacement is started from the unchanged snapshot, and if it is answered at once that answer is honest. */
  lemma CompleteSuperseded(s: ActorState, id: nat, outcome: BuildOutcome)
    requires Inv(s) && Enabled(s, SComplete(id, outcome)) && s.replacement.Some? && s.shutdown.None?
    ensures var t := Complete(s, id, outcome);
            var c, r := s.pending.value.command, s.replacement.value;
            && s.pending.value.replyErr.Some? && Answers(t, c.id) == [Failed(s.pending.value.replyErr.value)]
            && t.replacement.None? && (IsPending(t, r.id) || (t.pending.None? && |Answers(t, r.id)| == 1))
            && HonestReplies(s, t, r)
            && t.current.generation == s.current.generation && t.current.records == s.current.records
  {
    var c, r := s.pending.value.command, s.replacement.value;
    assert Placed(s, c.id) && Placed(s, r.id);
    CompleteShape(s, id, outcome);
    var t := Settle(s.(builds := {}), s.pending.value, Verdict(s, s.pending.value, outcome));
    SettleSound(s, s.pending.value, outcome);
    var u := t.(replacement := None);
    assert Answers(u, c.id) == [Failed(s.pending.value.replyErr.value)] && Untouched(u, r.id) && u.current == s.current;
    StartHonest(u, r);
    StartKeepsRecords(u, r);
    StartAnswersOne(u, r, c.id);
  }

  lemma StartAnswersOne(s: ActorState, c: ApplyCommand, id: nat)
    requires s.pending.None? && s.replacement.None?
    ensures id != c.id ==> Answers(Start(s, c), id) == Answers(s, id)
    ensures Start(s, c).replacement.None? && (Start(s, c).pending.Some? ==> IsPending(Start(s, c), c.id))
  {
  }

  // ----- what the generation check does not see

  /** Taking c now replaces the state without a new generation. */
  predicate Overwrites(s: ActorState, c: ApplyCommand) {
    && s.shutdown.None? && c.ctx !in s.dead && c.proposal.base == s.current.generation
    && c.proposal.build.None? && c.proposal.state != s.current.state
  }

  /** The command the step would take now, if it takes one. */
  function Taker(s: ActorState, step: Step): Option<ApplyCommand> {
    if step.SApply? && s.pending.None? then Some(step.command)
    else if step.SComplete? then s.replacement
    else None
  }

  predicate Silent(s: ActorState, step: Step) { Taker(s, step).Some? && Overwrites(s, Taker(s, step).value) }

  lemma StartSilentIff(s: ActorState, c: ApplyCommand)
    requires s.shutdown.None?
    ensures Start(s, c).current == if Overwrites(s, c) then s.current.(state := c.proposal.state) else s.current
  {
  }

  lemma CompleteSilentIff(s: ActorState, id: nat, outcome: BuildOutcome)
    requires Inv(s) && Enabled(s, SComplete(id, outcome))
    ensures var t := Complete(s, id, outcome);
            t.current.generation == s.current.generation ==>
              if Silent(s, SComplete(id, outcome))
              then t.current == s.current.(state := s.replacement.value.proposal.state)
              else t.current == s.current
    ensures Silent(s, SComplete(id, outcome)) ==> Complete(s, id, outcome).current.generation == s.current.generation
  {
    CompleteShape(s, id, outcome);
    SettleSound(s, s.pending.value, outcome);
    var t := Settle(s.(builds := {}), s.pending.value, Verdict(s, s.pending.value, outcome));
    if t.replacement.Some? && t.shutdown.None? {
      StartSilentIff(t.(replacement := None), t.replacement.value);
    }
  }

  /** A step changes the snapshot under an unchanged generation exactly when it takes a command that overwrites: a
      state-only command received while nothing is pending, or one that waited as replacement. */
  lemma SilentChangeIff(s: ActorState, step: Step)
    requires Inv(s) && Enabled(s, step)
    ensures var t := Next(s, step);
            && (Silent(s, step) <==> t.current.generation == s.current.generation && t.current != s.current)
            && (Silent(s, step) ==> t.current == s.current.(state := Taker(s, step).value.proposal.state))
  {
    match step
    case SApply(c) =>
      var t := s.(accepted := s.accepted + {c.id});
      if s.shutdown.None? && s.pending.None? { StartSilentIff(t, c); }
    case SComplete(id, outcome) => CompleteSilentIff(s, id, outcome);
    case _ =>
  }

  /** The state last written silently between i and j, or the one at i. */
  ghost function Written(states: seq<ActorState>, steps: seq<Step>, i: nat, j: nat): State
    requires i <= j < |states| && |states| == |steps| + 1
  {
    if i == j then states[i].current.state
    else if Silent(states[j - 1], steps[j - 1]) then Taker(states[j - 1], steps[j - 1]).value.proposal.state
    else Written(states, steps, i, j - 1)
  }

  /** Under one generation the snapshot is what was read, but for the state last written silently. */
  lemma {:induction false} CurrentIsLastWritten(states: seq<ActorState>, steps: seq<Step>, i: nat, j: nat)
    requires Execution(states, steps) && Inv(states[0]) && i <= j < |states|
    requires states[i].current.generation == states[j].current.generation
    ensures states[j].current == states[i].current.(state := Written(states, steps, i, j))
    decreases j
  {
    if i < j {
      PublicationSafety(states, steps, i, j - 1);
      PublicationSafety(states, steps, j - 1, j);
      ReachableInv(states, steps, j - 1);
      SilentChangeIff(states[j - 1], steps[j - 1]);
      CurrentIsLastWritten(states, steps, i, j - 1);
    }
  }

  /** Exactly when a snapshot read at i is still the current one at j: its generation is current, and what was last
      written silently since, if anything, is the state it was read with. In particular nothing need be feared when no
      step in between was silent. */
  lemma ReadStillCurrentIff(states: seq<ActorState>, steps: seq<Step>, i: nat, j: nat)
    requires Execution(states, steps) && Inv(states[0]) && i <= j < |states|
    ensures states[j].current == states[i].current <==>
              && states[j].current.generation == states[i].current.generation
              && Written(states, steps, i, j) == states[i].current.state
    ensures (forall k :: i <= k < j ==> !Silent(states[k], steps[k])) ==>
              Written(states, steps, i, j) == states[i].current.state
  {
    if states[j].current.generation == states[i].current.generation { CurrentIsLastWritten(states, steps, i, j); }
    if forall k :: i <= k < j ==> !Silent(states[k], steps[k]) { NothingWritten(states, steps, i, j); }
  }

  lemma {:induction false} NothingWritten(states: seq<ActorState>, steps: seq<Step>, i: nat, j: nat)
    requires i <= j < |states| && |states| == |steps| + 1
    requires forall k :: i <= k < j ==> !Silent(states[k], steps[k])
    ensures Written(states, steps, i, j) == states[i].current.state
    decreases j
  {
    if i < j { NothingWritten(states, steps, i, j - 1); }
  }

  // ----- checks that can never fire

  /** start without its stale-generation check. */
  function LeanStart(s: ActorState, c: ApplyCommand): ActorState {
    if c.ctx in s.dead then Refuse(s, c, Cause(c.ctx))
    else if c.proposal.build.None? then
      var snapshot := s.current.(state := c.proposal.state);
      Answer(s.(current := snapshot), c, Done(snapshot, c.proposal.effect))
    else if !s.hasGenerator then Refuse(s, c, NilGenerator)
    else if s.nextID == MAX_UINT64 then Refuse(s, c, GenerationLimit)
    else s.(nextID := s.nextID + 1, builds := s.builds + {s.nextID + 1},
            pending := Some(Pending(s.nextID + 1, c, false, None)))
  }

  /** The completion arm without the unmatched-completion test and without either stale-generation test. */
  function LeanComplete(s: ActorState, outcome: BuildOutcome): ActorState
    requires s.pending.Some?
  {
    var p := s.pending.value;
    var s := s.(builds := {});
    var reply :=
      if p.retiring then Failed(if p.replyErr.Some? then p.replyErr.value else Closed)
      else if p.command.ctx in s.dead then Failed(Cause(p.command.ctx))
      else if SessionCtx in s.dead then Failed(Cause(SessionCtx))
      else if outcome.BuildError? then Failed(BuildFailed)
      else Done(Snapshot(p.id, p.command.proposal.state, outcome.records), p.command.proposal.effect.(reload := p.id));
    var t := Settle(s, p, reply);
    if t.replacement.Some? && t.shutdown.None? then LeanStart(t.(replacement := None), t.replacement.value) else t
  }

  /** The optimistic checks after admission are redundant: in a reachable state the arms behave as if they were not
      there, because nothing can move the generation while a transition is in progress. */
  lemma OptimisticChecksRedundant(s: ActorState, step: Step)
    requires Inv(s) && Enabled(s, step)
    ensures step.SComplete? ==> s.pending.Some? && Next(s, step) == LeanComplete(s, step.outcome)
    ensures step.SApply? && s.shutdown.None? && step.command.ctx !in s.dead && s.pending.None?
              && step.command.proposal.base == s.current.generation ==>
              Next(s, step) == LeanStart(s.(accepted := s.accepted + {step.command.id}), step.command)
  {
    if step.SComplete? {
      CompleteShape(s, step.id, step.outcome);
      SettleSound(s, s.pending.value, step.outcome);
    }
  }

  // ----- replies are final

  /** From s to t no reply is taken back and no command but those in taken is accepted. */
  ghost predicate Final(s: ActorState, t: ActorState, id: nat, taken: set<nat>) {
    Answers(s, id) <= Answers(t, id) && t.accepted == s.accepted + taken
  }

  lemma RefuseFinal(s: ActorState, c: ApplyCommand, e: Error, id: nat)
    ensures Final(s, Refuse(s, c, e), id, {})
  {
  }

  lemma StartFinal(s: ActorState, c: ApplyCommand, id: nat)
    ensures Final(s, Start(s, c), id, {})
  {
    if c.ctx in s.dead {
      RefuseFinal(s, c, Cause(c.ctx), id);
    } else if c.proposal.base != s.current.generation {
      RefuseFinal(s, c, StaleGeneration, id);
    } else if c.proposal.build.None? {
    } else if !s.hasGenerator {
      RefuseFinal(s, c, NilGenerator, id);
    } else if s.nextID == MAX_UINT64 {
      RefuseFinal(s, c, GenerationLimit, id);
    }
  }

  lemma ReceiveFinal(s: ActorState, c: ApplyCommand, id: nat)
    ensures Final(s, Receive(s, c), id, {c.id})
  {
    var t := s.(accepted := s.accepted + {c.id});
    if t.shutdown.Some? {
      RefuseFinal(t, c, t.shutdown.value, id);
    } else if c.ctx in t.dead {
      RefuseFinal(t, c, Cause(c.ctx), id);
    } else if c.proposal.base != t.current.generation {
      RefuseFinal(t, c, StaleGeneration, id);
    } else if t.pending.None? {
      StartFinal(t, c, id);
    } else if t.pending.value.retiring || t.replacement.Some? {
      RefuseFinal(t, c, TransitionPending, id);
    }
  }

  lemma CompleteFinal(s: ActorState, n: nat, outcome: BuildOutcome, id: nat)
    requires Control(s) && n in s.builds
    ensures Final(s, Complete(s, n, outcome), id, {})
  {
    CompleteShape(s, n, outcome);
    var t := Settle(s.(builds := {}), s.pending.value, Verdict(s, s.pending.value, outcome));
    assert Final(s, t, id, {});
    if t.replacement.Some? && t.shutdown.None? {
      StartFinal(t.(replacement := None), t.replacement.value, id);
    }
  }

  /** Replies are final. */
  lemma StepFinal(s: ActorState, step: Step, id: nat)
    requires Inv(s) && Enabled(s, step)
    ensures Final(s, Next(s, step), id, if step.SApply? then {step.command.id} else {})
  {
    match step
    case SApply(c) => ReceiveFinal(s, c, id);
    case SComplete(n, outcome) => CompleteFinal(s, n, outcome, id);
    case _ =>
  }

  // ----- shutdown

  /** Once shutdown has begun, the single outstanding completion, whatever it carries, leads straight to exit: every
      accepted command replied, no goroutine left, the snapshot as it was. */
  lemma ShutdownDrains(s: ActorState, outcome: BuildOutcome)
    requires Inv(s) && s.shutdown.Some? && s.pending.Some?
    ensures s.builds == {s.pending.value.id}
    ensures var step := SComplete(s.pending.value.id, outcome);
            && Enabled(s, step)
            && Enabled(Next(s, step), SDrain)
            && var last := Next(Next(s, step), SDrain);
            && last.exited && last.builds == {} && last.current == s.current
            && forall id :: id in last.accepted ==> Replied(last, id)
  {
    var step := SComplete(s.pending.value.id, outcome);
    InvKept(s, step);
    StepLater(s, step);
    var t := Next(s, step);
    assert t.pending.None? && t.shutdown.Some?;
    InvKept(t, SDrain);
    StepLater(t, SDrain);
    var last := Next(t, SDrain);
    forall id | id in last.accepted ensures Replied(last, id) { assert Placed(last, id); }
  }
}
