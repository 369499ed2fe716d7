/** Sessions without initial enrichment, when events reach the reducer one after another, as fzf sends them while it
    waits for each callback: each event either fails or is published, and fzf performs the effect. */
module SessionRuns {
  import opened Basics
  import opened Protocol
  import opened Events
  import opened Render
  import Display

  datatype Session = Session(snapshot: Snapshot, view: View)

  /** One event and what its environment makes of it: the directories created for an Add, whether the actor published
      it, and the generation and records of the build it may have asked for. */
  datatype Turn = Turn(
    event: Event, created: Option<CreatedTree>, published: bool, generation: nat, records: seq<Record>)

  ghost predicate Accepted(env: Env, s: Session, t: Turn) { t.published && Reduce(env, s.snapshot, t.event).Ok? }

  function ProposalOf(env: Env, s: Session, t: Turn): Proposal
    requires Reduce(env, s.snapshot, t.event).Ok?
  {
    Submitted(env, s.snapshot, Reduce(env, s.snapshot, t.event).value, t.created)
  }

  /** The effect fzf is sent: the actor stamped the build's generation into it, and nothing is suppressed. */
  function EffectOf(env: Env, s: Session, t: Turn): Effect
    requires Reduce(env, s.snapshot, t.event).Ok?
  {
    Screened(false, t.event.opcode, Stamped(ProposalOf(env, s, t), t.generation))
  }

  ghost function Served(env: Env, g: Groups, s: Session, t: Turn): Session {
    if !Accepted(env, s, t) then s
    else
      var p := ProposalOf(env, s, t);
      Session(if p.build.None? then s.snapshot.(state := p.state) else Snapshot(t.generation, p.state, t.records),
              After(g, s.view, EffectOf(env, s, t), 0))
  }

  ghost function Serve(env: Env, g: Groups): (Session, Turn) -> Session { (s, t) => Served(env, g, s, t) }

  /** sessions[i + 1] follows from sessions[i] by turns[i]. */
  ghost predicate Chained(next: (Session, Turn) -> Session, sessions: seq<Session>, turns: seq<Turn>) {
    && |sessions| == |turns| + 1
    && forall i {:trigger turns[i]} :: 0 <= i < |turns| ==>
         turns[i].generation > 0 && sessions[i + 1] == next(sessions[i], turns[i])
  }

  ghost predicate Run(env: Env, g: Groups, sessions: seq<Session>, turns: seq<Turn>) {
    Chained(Serve(env, g), sessions, turns)
  }

  lemma {:induction false} KeptThroughout(next: (Session, Turn) -> Session, inv: Session -> bool,
                                          sessions: seq<Session>, turns: seq<Turn>, i: nat)
    requires Chained(next, sessions, turns) && i < |sessions| && inv(sessions[0])
    requires forall s: Session, t: Turn :: inv(s) && t.generation > 0 ==> inv(next(s, t))
    ensures inv(sessions[i])
  {
    if i > 0 {
      KeptThroughout(next, inv, sessions, turns, i - 1);
      assert turns[i - 1].generation > 0;
    }
  }

  ghost predicate Steady(env: Env, g: Groups, start: State, s: Session) {
    && s.snapshot.generation > 0
    && StateOk(s.snapshot.state) && s.snapshot.state.picker == start.picker && s.snapshot.state.home == start.home
    && Tracks(env, g, s.view, s.snapshot)
  }

  lemma TurnKeeps(env: Env, g: Groups, start: State, s: Session, t: Turn)
    requires Display.RejectsControls(env.graphic) && Separate(g) && Steady(env, g, start, s) && t.generation > 0
    ensures Steady(env, g, start, Served(env, g, s, t))
    ensures Accepted(env, s, t) ==> Renderable(EffectOf(env, s, t))
  {
    if Accepted(env, s, t) {
      SubmittedWellFormed(env, s.snapshot, t.event, t.created);
      EffectsRender(s.snapshot, ProposalOf(env, s, t), t.generation, false, t.event.opcode);
      EventsLand(env, s.snapshot, t.event, t.created);
      EventKeepsStep(env, g, s.view, s.snapshot, ProposalOf(env, s, t), Served(env, g, s, t).snapshot, false,
                     t.event.opcode, 0);
    }
  }

  /** After any sequence of events: the prompt is the mode's, an Add error is shown only in Add mode, picker and home
      are the initial ones, fzf's bindings, search and list follow the mode alone, and its prompt and header show the
      mode and the location. */
  lemma EverySession(env: Env, g: Groups, sessions: seq<Session>, turns: seq<Turn>, i: nat)
    requires Display.RejectsControls(env.graphic) && Separate(g)
    requires Run(env, g, sessions, turns) && i < |sessions|
    requires Steady(env, g, sessions[0].snapshot.state, sessions[0])
    ensures Steady(env, g, sessions[0].snapshot.state, sessions[i])
  {
    var start := sessions[0].snapshot.state;
    var next := Serve(env, g);
    var inv := (s: Session) => Steady(env, g, start, s);
    forall s: Session, t: Turn | inv(s) && t.generation > 0 ensures inv(next(s, t)) { TurnKeeps(env, g, start, s, t); }
    KeptThroughout(next, inv, sessions, turns, i);
  }

  /** Every effect emitted on the way is accepted by renderEffect. */
  lemma EveryEffectRenders(env: Env, g: Groups, sessions: seq<Session>, turns: seq<Turn>, i: nat)
    requires Display.RejectsControls(env.graphic) && Separate(g)
    requires Run(env, g, sessions, turns) && i < |turns|
    requires Steady(env, g, sessions[0].snapshot.state, sessions[0])
    ensures Accepted(env, sessions[i], turns[i]) ==> Renderable(EffectOf(env, sessions[i], turns[i]))
  {
    EverySession(env, g, sessions, turns, i);
    assert turns[i].generation > 0;
    TurnKeeps(env, g, sessions[0].snapshot.state, sessions[i], turns[i]);
  }
}
