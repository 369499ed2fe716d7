/** Which command the session actor holds, which it refuses and with what error, and what becomes of one that is
    superseded. */
module ActorDecisions {
  import opened Basics
  import opened Protocol
  import opened Actor
  import ActorRuns

  // ----- an arriving command

  /** Shutdown has not begun, the caller lives, and the command was made from the current generation. */
  predicate Admissible(s: ActorState, c: ApplyCommand) {
    s.shutdown.None? && c.ctx !in s.dead && c.proposal.base == s.current.generation
  }

  /** The one transition in progress may still be displaced. */
  predicate Displaceable(s: ActorState) { s.pending.Some? && !s.pending.value.retiring && s.replacement.None? }

  /** What became of the admissible command c in t when nothing stood in its way in s. */
  predicate Begun(s: ActorState, t: ActorState, c: ApplyCommand) {
    var answers := Answers(t, c.id);
    if c.proposal.build.None? then
      var snapshot := s.current.(state := c.proposal.state);
      t.pending.None? && answers == [Done(snapshot, c.proposal.effect)] && t.current == snapshot
    else if !s.hasGenerator then t.pending.None? && answers == [Failed(NilGenerator)] && t.current == s.current
    else if s.nextID == MAX_UINT64 then
      t.pending.None? && answers == [Failed(GenerationLimit)] && t.current == s.current
    else
      && answers == [] && t.current == s.current && t.nextID == s.nextID + 1
      && t.pending == Some(Pending(t.nextID, c, false, None)) && t.builds == {t.nextID}
  }

  /** The decision over a fresh command. It becomes the replacement exactly when it is admissible and meets a build that
      is not retiring with nothing waiting; that build's command is then marked superseded. Every refusal has its own
      cause, in this order. */
  lemma ReceiveDecides(s: ActorState, c: ApplyCommand)
    requires Inv(s) && Enabled(s, SApply(c))
    ensures var t := Next(s, SApply(c));
            && (IsReplacement(t, c.id) <==> Admissible(s, c) && Displaceable(s))
            && (IsReplacement(t, c.id) ==>
                  && t.replacement == Some(c)
                  && t.pending == Some(s.pending.value.(retiring := true, replyErr := Some(Superseded))))
            && (!IsReplacement(t, c.id) ==> t.replacement == s.replacement)
            && (IsPending(t, c.id) <==>
                  Admissible(s, c) && s.pending.None? && c.proposal.build.Some? && s.hasGenerator
                  && s.nextID < MAX_UINT64)
            && (!IsReplacement(t, c.id) && !IsPending(t, c.id) ==> t.pending == s.pending)
    ensures var t := Next(s, SApply(c));
            var answers := Answers(t, c.id);
            && (s.shutdown.Some? ==> answers == [Failed(s.shutdown.value)])
            && (s.shutdown.None? && c.ctx in s.dead ==> answers == [Failed(Cause(c.ctx))])
            && (s.shutdown.None? && c.ctx !in s.dead && c.proposal.base != s.current.generation ==>
                  answers == [Failed(StaleGeneration)])
            && (Admissible(s, c) && s.pending.Some? && !Displaceable(s) ==> answers == [Failed(TransitionPending)])
            && (Admissible(s, c) && Displaceable(s) ==> answers == [])
            && (Admissible(s, c) && s.pending.None? ==> Begun(s, t, c))
            && (!Admissible(s, c) || s.pending.Some? ==> t.current == s.current)
  {
    assert Placed(s, c.id);
  }

  // ----- a completion

  /** The answer to the command whose build ends. A retired one gets the error it was retired with, whatever the build
      brings; any other is published unless its caller or the session has gone or the build failed. */
  lemma CompleteDecides(s: ActorState, id: nat, outcome: BuildOutcome)
    requires Inv(s) && Enabled(s, SComplete(id, outcome))
    ensures s.pending.Some? && s.pending.value.id == id
    ensures var t, p := Next(s, SComplete(id, outcome)), s.pending.value;
            var answers, before := Answers(t, p.command.id), s.current;
            && (p.retiring ==> answers == [Failed(p.replyErr.value)])
            && (!p.retiring ==>
                  && s.replacement.None? && t.pending.None? && t.replacement.None?
                  && (if p.command.ctx in s.dead then answers == [Failed(Cause(p.command.ctx))] && t.current == before
                      else if SessionCtx in s.dead then answers == [Failed(Cause(SessionCtx))] && t.current == before
                      else if outcome.BuildError? then answers == [Failed(BuildFailed)] && t.current == before
                      else
                        && t.current == Snapshot(id, p.command.proposal.state, outcome.records)
                        && answers == [Done(t.current, p.command.proposal.effect.(reload := id))]))
  {
    assert Placed(s, s.pending.value.command.id);
    if s.replacement.None? {
      ActorRuns.CompleteHonest(s, id, outcome);
    } else if s.shutdown.None? {
      ActorRuns.CompleteSuperseded(s, id, outcome);
    }
  }

  /** What the completion does with a command that waited as replacement: it is started from the unchanged snapshot,
      refused when its caller has gone meanwhile, and left waiting when shutdown has begun. */
  lemma ReplacementDecides(s: ActorState, id: nat, outcome: BuildOutcome)
    requires Inv(s) && Enabled(s, SComplete(id, outcome)) && s.replacement.Some?
    ensures var t, c := Next(s, SComplete(id, outcome)), s.replacement.value;
            && (s.shutdown.Some? ==> t.replacement == s.replacement && t.pending.None? && t.current == s.current)
            && (s.shutdown.None? && c.ctx in s.dead ==>
                  t.replacement.None? && t.pending.None? && Answers(t, c.id) == [Failed(Cause(c.ctx))]
                  && t.current == s.current)
            && (s.shutdown.None? && c.ctx !in s.dead ==> t.replacement.None? && Begun(s, t, c))
  {
    var p, c := s.pending.value, s.replacement.value;
    assert Placed(s, p.command.id) && Placed(s, c.id);
    CompleteShape(s, id, outcome);
    var u := Settle(s.(builds := {}), p, Verdict(s, p, outcome));
    assert u == Refuse(s.(builds := {}, pending := None), p.command, p.replyErr.value);
    assert Answers(u, c.id) == [];
  }

  /** A command still waiting when the loop ends is answered with the reason for the shutdown. */
  lemma DrainDecides(s: ActorState)
    requires Inv(s) && Enabled(s, SDrain)
    ensures var t := Next(s, SDrain);
            && t.exited && t.replacement.None? && t.current == s.current
            && (s.replacement.Some? ==> Answers(t, s.replacement.value.id) == [Failed(s.shutdown.value)])
  {
    if s.replacement.Some? { assert Placed(s, s.replacement.value.id); }
  }

  // ----- enrichment

  /** An enrichment is published exactly when nothing speaks against it, under the next generation and with the state
      as it was; otherwise the first objection is its error and nothing changes. */
  lemma EnrichDecides(s: ActorState, ctx: Ctx, base: nat, records: seq<Record>)
    requires Inv(s) && Enabled(s, SEnrich(ctx, base, records))
    ensures var t, error := Next(s, SEnrich(ctx, base, records)), EnrichError(s, ctx, base);
            && (error.None? <==>
                  s.shutdown.None? && ctx !in s.dead && SessionCtx !in s.dead && base == s.current.generation
                  && s.pending.None? && s.nextID < MAX_UINT64)
            && (error.None? ==>
                  t.current == Snapshot(s.nextID + 1, s.current.state, records) && t.nextID == s.nextID + 1)
            && (error.Some? ==> t == s)
            && (s.shutdown.Some? ==> error == s.shutdown)
            && (s.shutdown.None? && ctx in s.dead ==> error == Some(Cause(ctx)))
            && (s.shutdown.None? && ctx !in s.dead && SessionCtx in s.dead ==> error == Some(Cause(SessionCtx)))
            && (s.shutdown.None? && {ctx, SessionCtx} !! s.dead && base != s.current.generation ==>
                  error == Some(StaleGeneration))
            && (s.shutdown.None? && {ctx, SessionCtx} !! s.dead && base == s.current.generation && s.pending.Some? ==>
                  error == Some(TransitionPending))
  {
  }

  // ----- retiring

  /** Why the step retires the command c in progress, if it does. */
  function Reason(s: ActorState, step: Step, c: ApplyCommand): Option<Error> {
    match step
    case SApply(d) => if Admissible(s, d) && s.replacement.None? then Some(Superseded) else None
    case SClose => if s.closing then None else Some(Closed)
    case SCallerDone => Some(Cause(c.ctx))
    case SSessionDone => Some(Cause(SessionCtx))
    case _ => None
  }

  /** A transition in progress is retired exactly by a superseding command, Close, the end of its caller or the end of
      the session, each leaving its own error; nothing else but its completion touches it. */
  lemma RetiredBy(s: ActorState, step: Step)
    requires Inv(s) && Enabled(s, step) && s.pending.Some? && !s.pending.value.retiring && !step.SComplete?
    ensures var p := s.pending.value;
            var reason := Reason(s, step, p.command);
            Next(s, step).pending == Some(if reason.None? then p else p.(retiring := true, replyErr := reason))
  {
  }

  /** What shuts the loop down, for which reason, and when it leaves. */
  lemma ShutdownDecides(s: ActorState, step: Step)
    requires Inv(s) && Enabled(s, step)
    ensures var t := Next(s, step);
            && t.shutdown == (if step.SClose? && !s.closing then Some(Closed)
                              else if step.SSessionDone? then Some(Cause(SessionCtx)) else s.shutdown)
            && (t.exited <==> s.exited || step.SDrain?)
            && t.dead == s.dead + (if step.SCancel? then {step.ctx} else {})
            && t.hasGenerator == s.hasGenerator
  {
    match step
    case SApply(c) => StartKeepsControl(s.(accepted := s.accepted + {c.id}), c);
    case SComplete(id, outcome) => CompleteKeepsControl(s, id, outcome);
    case _ =>
  }

  lemma CompleteKeepsControl(s: ActorState, id: nat, outcome: BuildOutcome)
    requires Control(s) && id in s.builds
    ensures SameControl(s, Complete(s, id, outcome))
  {
    CompleteShape(s, id, outcome);
    var t := Settle(s.(builds := {}), s.pending.value, Verdict(s, s.pending.value, outcome));
    if t.replacement.Some? { StartKeepsControl(t.(replacement := None), t.replacement.value); }
  }

  predicate SameControl(s: ActorState, t: ActorState) {
    t.shutdown == s.shutdown && t.exited == s.exited && t.dead == s.dead && t.hasGenerator == s.hasGenerator
  }

  lemma StartKeepsControl(s: ActorState, c: ApplyCommand)
    ensures SameControl(s, Start(s, c))
  {
    if c.ctx in s.dead {
      assert SameControl(s, Refuse(s, c, Cause(c.ctx)));
    } else if c.proposal.base != s.current.generation {
      assert SameControl(s, Refuse(s, c, StaleGeneration));
    } else if c.proposal.build.None? {
    } else if !s.hasGenerator {
      assert SameControl(s, Refuse(s, c, NilGenerator));
    } else if s.nextID == MAX_UINT64 {
      assert SameControl(s, Refuse(s, c, GenerationLimit));
    }
  }

  /** What a retired command is held or answered as. */
  predicate RetiredAs(s: ActorState, p: Pending)
    requires p.replyErr.Some?
  {
    s.pending == Some(p) || (!IsPending(s, p.command.id) && Answers(s, p.command.id) == [Failed(p.replyErr.value)])
  }

  lemma RetiredStep(s: ActorState, p: Pending, step: Step)
    requires Inv(s) && Enabled(s, step) && p.retiring && p.replyErr.Some? && RetiredAs(s, p)
    ensures RetiredAs(Next(s, step), p)
  {
    var id, t := p.command.id, Next(s, step);
    assert Placed(s, id);
    InvKept(s, step);
    assert Placed(t, id);
    ActorRuns.StepFinal(s, step, id);
    if s.pending == Some(p) {
      if step.SComplete? { CompleteDecides(s, step.id, step.outcome); } else { RetiredStays(s, step); }
    }
  }

  lemma RetiredStays(s: ActorState, step: Step)
    requires Inv(s) && Enabled(s, step) && s.pending.Some? && s.pending.value.retiring && !step.SComplete?
    ensures Next(s, step).pending == s.pending
  {
  }

  /** Over every execution: what a command was retired with is what it is answered, whatever happens afterwards. */
  lemma {:induction false} RetirementIsFinal(states: seq<ActorState>, steps: seq<Step>, i: nat, j: nat)
    requires Execution(states, steps) && Inv(states[0]) && i <= j < |states|
    requires states[i].pending.Some? && states[i].pending.value.retiring
    ensures states[i].pending.value.replyErr.Some? && RetiredAs(states[j], states[i].pending.value)
    decreases j
  {
    ReachableInv(states, steps, i);
    if i < j {
      RetirementIsFinal(states, steps, i, j - 1);
      ReachableInv(states, steps, j - 1);
      RetiredStep(states[j - 1], states[i].pending.value, steps[j - 1]);
    }
  }

  /** Supersession over every execution: from the step in which a command becomes the replacement on, the one it
      displaces is held, marked superseded, or has been answered with exactly that error. */
  lemma SupersededIsRefused(states: seq<ActorState>, steps: seq<Step>, i: nat, j: nat)
    requires Execution(states, steps) && Inv(states[0]) && i < j < |states| && steps[i].SApply?
    requires IsReplacement(states[i + 1], steps[i].command.id)
    ensures Admissible(states[i], steps[i].command) && Displaceable(states[i])
    ensures var d := states[i].pending.value.command.id;
            IsPending(states[j], d) || Answers(states[j], d) == [Failed(Superseded)]
  {
    ReachableInv(states, steps, i);
    ReceiveDecides(states[i], steps[i].command);
    RetirementIsFinal(states, steps, i + 1, j);
  }
}
