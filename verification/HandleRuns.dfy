/** Any number of concurrent Handle calls on one actor and no coordinator, as the copy picker's backend allows
    (internal/app/backend.go:33-38): a proposal may be made from any earlier snapshot, and arrives whenever it
    arrives. */
module HandleRuns {
  import opened Basics
  import opened Protocol
  import opened Events
  import opened Render
  import opened Actor
  import Display

  /** The command was proposed by the reducer, for some event, from a snapshot current at some moment up to k. */
  ghost predicate FromEarlier(env: Env, states: seq<ActorState>, k: nat, c: ApplyCommand)
    requires k < |states|
  {
    exists j, event, created :: 0 <= j <= k && ProposedAt(env, states[j].current, event, created, c.proposal)
  }

  predicate ProposedAt(env: Env, seen: Snapshot, event: Event, created: Option<CreatedTree>, p: Proposal) {
    var r := Reduce(env, seen, event);
    r.Ok? && p == Submitted(env, seen, r.value, created)
  }

  /** An execution of the actor in which every command comes from a Handle call. */
  ghost predicate Handled(env: Env, states: seq<ActorState>, steps: seq<Step>) {
    && Execution(states, steps)
    && forall k {:trigger steps[k]} :: 0 <= k < |steps| && steps[k].SApply? ==>
         FromEarlier(env, states, k, steps[k].command)
  }

  /** A proposal anyone may apply at any time: its state is sound and its effect renders, stamped or not. */
  predicate Proper(start: State, p: Proposal) {
    && StateOk(p.state) && p.state.picker == start.picker && p.state.home == start.home
    && Renderable(p.effect) && (p.build.Some? ==> p.effect.restore == 0)
  }

  predicate AnswerRenders(s: ActorState, id: nat) {
    Answers(s, id) != [] && Answers(s, id)[0].Done? ==> Renderable(Answers(s, id)[0].effect)
  }

  /** Everything the actor holds is proper, and the answer to command id, if it has one, renders. */
  predicate Sober(start: State, s: ActorState, id: nat) {
    && StateOk(s.current.state) && s.current.state.picker == start.picker && s.current.state.home == start.home
    && (s.pending.Some? ==> Proper(start, s.pending.value.command.proposal))
    && (s.replacement.Some? ==> Proper(start, s.replacement.value.proposal))
    && AnswerRenders(s, id)
  }

  lemma RefuseSober(start: State, s: ActorState, id: nat, c: ApplyCommand, e: Error)
    requires Sober(start, s, id)
    ensures Sober(start, Refuse(s, c, e), id)
  {
  }

  lemma StartSober(start: State, s: ActorState, id: nat, c: ApplyCommand)
    requires Sober(start, s, id) && Proper(start, c.proposal)
    ensures Sober(start, Actor.Start(s, c), id)
  {
    if c.ctx in s.dead {
      RefuseSober(start, s, id, c, Cause(c.ctx));
    } else if c.proposal.base != s.current.generation {
      RefuseSober(start, s, id, c, StaleGeneration);
    } else if c.proposal.build.None? {
    } else if !s.hasGenerator {
      RefuseSober(start, s, id, c, NilGenerator);
    } else if s.nextID == MAX_UINT64 {
      RefuseSober(start, s, id, c, GenerationLimit);
    }
  }

  lemma ReceiveSober(start: State, s: ActorState, id: nat, c: ApplyCommand)
    requires Sober(start, s, id) && Proper(start, c.proposal)
    ensures Sober(start, Receive(s, c), id)
  {
    var t := s.(accepted := s.accepted + {c.id});
    if t.shutdown.Some? {
      RefuseSober(start, t, id, c, t.shutdown.value);
    } else if c.ctx in t.dead {
      RefuseSober(start, t, id, c, Cause(c.ctx));
    } else if c.proposal.base != t.current.generation {
      RefuseSober(start, t, id, c, StaleGeneration);
    } else if t.pending.None? {
      StartSober(start, t, id, c);
    } else if t.pending.value.retiring || t.replacement.Some? {
      RefuseSober(start, t, id, c, TransitionPending);
    }
  }

  lemma SettleSober(start: State, s: ActorState, id: nat, outcome: BuildOutcome)
    requires Sober(start, s, id) && Inv(s) && s.pending.Some?
    ensures Sober(start, Settle(s.(builds := {}), s.pending.value, Verdict(s, s.pending.value, outcome)), id)
  {
  }

  lemma CompleteSober(start: State, s: ActorState, id: nat, n: nat, outcome: BuildOutcome)
    requires Sober(start, s, id) && Inv(s) && Enabled(s, SComplete(n, outcome))
    ensures Sober(start, Complete(s, n, outcome), id)
  {
    CompleteShape(s, n, outcome);
    SettleSober(start, s, id, outcome);
    var t := Settle(s.(builds := {}), s.pending.value, Verdict(s, s.pending.value, outcome));
    if t.replacement.Some? && t.shutdown.None? { StartSober(start, t.(replacement := None), id, t.replacement.value); }
  }

  lemma StepSober(start: State, s: ActorState, id: nat, step: Step)
    requires Sober(start, s, id) && Inv(s) && Enabled(s, step)
    requires step.SApply? ==> Proper(start, step.command.proposal)
    ensures Sober(start, Next(s, step), id)
  {
    match step
    case SApply(c) => ReceiveSober(start, s, id, c);
    case SComplete(n, outcome) => CompleteSober(start, s, id, n, outcome);
    case _ =>
  }

  /** What the reducer proposes from a sound snapshot is proper. */
  lemma ReducedIsProper(env: Env, start: State, seen: Snapshot, event: Event, created: Option<CreatedTree>, p: Proposal)
    requires Display.RejectsControls(env.graphic) && ProposedAt(env, seen, event, created, p)
    requires StateOk(seen.state) && seen.state.picker == start.picker && seen.state.home == start.home
    ensures Proper(start, p)
  {
    SubmittedWellFormed(env, seen, event, created);
    WellFormedIsProper(start, seen, p);
  }

  lemma WellFormedIsProper(start: State, seen: Snapshot, p: Proposal)
    requires WellFormed(seen, p) && seen.state.picker == start.picker && seen.state.home == start.home
    ensures Proper(start, p)
  {
    EffectsRender(seen, p, 0, false, OpUnknown([]));
  }

  lemma Origin(env: Env, states: seq<ActorState>, k: nat, c: ApplyCommand)
    returns (j: nat, event: Event, created: Option<CreatedTree>)
    requires k < |states| && FromEarlier(env, states, k, c)
    ensures j <= k && ProposedAt(env, states[j].current, event, created, c.proposal)
  {
    j, event, created :| 0 <= j <= k && ProposedAt(env, states[j].current, event, created, c.proposal);
  }

  /** In every execution with concurrent Handle calls, whichever overtake which: the snapshot's prompt is the mode's, an
      Add error implies Add mode, picker and home never change, and every effect a caller is answered with renders. */
  lemma {:induction false} ConcurrentHandlesSober(env: Env, states: seq<ActorState>, steps: seq<Step>, i: nat, id: nat)
    requires Display.RejectsControls(env.graphic) && Handled(env, states, steps) && i < |states|
    requires Inv(states[0]) && Sober(states[0].current.state, states[0], id)
    ensures Sober(states[0].current.state, states[i], id)
    decreases i
  {
    if i > 0 {
      var start, step := states[0].current.state, steps[i - 1];
      ConcurrentHandlesSober(env, states, steps, i - 1, id);
      ReachableInv(states, steps, i - 1);
      if step.SApply? {
        var j, event, created := Origin(env, states, i - 1, step.command);
        ConcurrentHandlesSober(env, states, steps, j, id);
        ReducedIsProper(env, start, states[j].current, event, created, step.command.proposal);
      }
      StepSober(start, states[i - 1], id, step);
    }
  }

  // ----- what fzf shows when effects overtake each other

  /** A navigation or change of mode brings fzf in step with its own state, whatever state fzf was in step with. */
  lemma LastEffectDecides(g: Groups, v: View, shown: State, from: Snapshot, p: Proposal, generation: nat)
    requires Separate(g) && InStep(g, v, shown) && WellFormed(from, p) && !Events.Action(from.state, p)
    requires from.generation > 0 && generation > 0
    ensures InStep(g, After(g, v, Stamped(p, generation), 0), p.state)
  {
    ModeBindings(g, v, shown, p.state.mode);
  }

  /** Same mode, and same Add error in the prompt. */
  predicate Same(a: State, b: State) { a.mode == b.mode && a.addError == b.addError }

  /** Exactly when fzf is in step with the session's state after it performed p's effect, whatever state it was in step
      with before: a navigation or change of mode decides alone; an action leaves it where it was; the empty list of an
      invalid path belongs to Insert mode only; and the Add error's prompt to a fzf that already shows Add mode. */
  predicate StillInStep(shown: State, from: Snapshot, p: Proposal, current: State) {
    if !Events.Action(from.state, p) then Same(current, p.state)
    else if p.effect.errorPrompt then shown.mode == Add && current.mode == Add && current.addError
    else Same(shown, current) && (p.effect.invalidPath ==> shown.mode == Insert)
  }

  /** Exactly when concurrent events leave fzf out of step. */
  lemma OvertakenIff(g: Groups, v: View, shown: State, from: Snapshot, p: Proposal, generation: nat, current: State)
    requires Separate(g) && InStep(g, v, shown) && StateOk(shown)
    requires WellFormed(from, p) && from.generation > 0 && generation > 0 && StateOk(current)
    ensures InStep(g, After(g, v, Stamped(p, generation), 0), current) <==> StillInStep(shown, from, p, current)
  {
    PromptsDiffer(current, p.state);
    PromptsDiffer(current, shown);
    if !Events.Action(from.state, p) {
      LastEffectDecides(g, v, shown, from, p, generation);
    } else {
      ActionInStep(g, v, shown, from, p, current);
    }
  }

  lemma KeysDiffer(g: Groups, v: View, a: State, b: Mode)
    requires Separate(g) && InStep(g, v, a)
    ensures v.bound - {CHANGE} == KeysFor(g, b) ==> (a.mode == Add <==> b == Add)
  {
    var k :| k in g.navigation;
    assert k in KeysFor(g, Insert) && k in KeysFor(g, Normal) && k !in KeysFor(g, Add) && k != CHANGE;
  }

  lemma ActionInStep(g: Groups, v: View, shown: State, from: Snapshot, p: Proposal, current: State)
    requires Separate(g) && InStep(g, v, shown) && StateOk(shown) && StateOk(current)
    requires WellFormed(from, p) && from.generation > 0 && Events.Action(from.state, p)
    ensures InStep(g, After(g, v, p.effect, 0), current) <==> StillInStep(shown, from, p, current)
  {
    PromptsDiffer(current, p.state);
    PromptsDiffer(current, shown);
    KeysDiffer(g, v, shown, current.mode);
    var w := After(g, v, p.effect, 0);
    assert !p.effect.invalidPath && p.effect.restore == 0 ==> w.bound == v.bound && w.listing == v.listing;
  }

  lemma PromptsDiffer(a: State, b: State)
    requires StateOk(a) && StateOk(b)
    ensures a.prompt == b.prompt <==> a.mode == b.mode && a.addError == b.addError
  {
    assert "[N] "[1] == 'N' && "[I] "[1] == 'I' && "[A] "[1] == 'A' && "[A!] "[1] == 'A' && "[A!] "[2] == '!';
    assert "[A] "[2] == ']';
  }
}
