/** How a session with initial enrichment comes to start (internal/app/run.go), and that its publication is possible:
    the theorems about all runs are about runs that exist. */
module CompositionStart {
  import opened Basics
  import opened Protocol
  import opened Actor
  import opened Gate
  import opened Events
  import opened Render
  import opened Composition
  import opened CompositionInv
  import opened InputStream
  import Codec

  /** The first transition run.go applies: Insert mode at the working directory, with a build of its listing. */
  function FirstProposal(picker: Picker, location: Location, home: Location): Proposal {
    Proposal(0, State(picker, Insert, location, home, "[I] ", false), Some(BuildRequest(picker, location, true)),
             NO_EFFECT.(mode := Some(Insert), prompt := "[I] ", search := "on", rebind := Some(Insert),
                        cursor := Some(CursorLine)),
             None)
  }

  /** Everything around the actor when the picker is launched. */
  function Launched(cfg: Config, actor: ActorState): World {
    World(actor, NewGate(), Stream(Codec.Frame(actor.current.records), false, false),
          map[], map[], Idle, map[], StartView(cfg.groups, Header(cfg.env, actor.current.state)), [], false, None)
  }

  /** The actor once the first transition was applied and its build delivered the listing. */
  function Listed(zero: State, c: ApplyCommand, listing: seq<Record>): ActorState {
    Complete(Receive(Initial(true, zero), c), 1, Built(listing))
  }

  /** A new actor that is given the first transition, and whose build delivers the base listing, is where every run of
      the composition starts. */
  lemma WiringReachesInit(cfg: Config, zero: State, location: Location)
    ensures var c := ApplyCommand(0, CallerCtx(0), FirstProposal(cfg.picker, location, cfg.home));
            && Enabled(Initial(true, zero), SApply(c))
            && Enabled(Receive(Initial(true, zero), c), SComplete(1, Built(cfg.base)))
            && Init(cfg, Launched(cfg, Listed(zero, c, cfg.base)))
  {
    var c := ApplyCommand(0, CallerCtx(0), FirstProposal(cfg.picker, location, cfg.home));
    var a := Initial(true, zero);
    InitialInv(true, zero);
    InvKept(a, SApply(c));
    var b := Receive(a, c);
    assert b.pending == Some(Pending(1, c, false, None));
    InvKept(b, SComplete(1, Built(cfg.base)));
    CompleteShape(b, 1, Built(cfg.base));
  }

  /** The run extended by one move. */
  lemma Extend(cfg: Config, worlds: seq<World>, moves: seq<Move>, m: Move) returns (longer: seq<World>, more: seq<Move>)
    requires Run(cfg, worlds, moves) && Possible(Last(worlds), m)
    ensures Run(cfg, longer, more) && longer[0] == worlds[0] && Last(longer) == Moved(cfg, Last(worlds), m)
    ensures more == moves + [m]
  {
    longer, more := worlds + [Moved(cfg, Last(worlds), m)], moves + [m];
  }

  function Last(worlds: seq<World>): World
    requires worlds != []
  {
    worlds[|worlds| - 1]
  }

  /** What must be true of the actor for an enrichment to go through. */
  predicate Alive(a: ActorState) {
    a.shutdown.None? && !a.exited && SourceCtx !in a.dead && SessionCtx !in a.dead && a.nextID < MAX_UINT64
  }

  /** The window is open, and nothing but gate and commit moved since the start. */
  predicate Opened(w: World, v: World, commit: Commit) {
    && v == w.(gate := v.gate, commit := commit)
    && v.gate.active && !v.gate.terminal && v.gate.baseGeneration == w.actor.current.generation
  }

  lemma WindowOpens(cfg: Config, w: World) returns (worlds: seq<World>, moves: seq<Move>)
    requires Init(cfg, w)
    ensures Run(cfg, worlds, moves) && worlds[0] == w && Opened(w, Last(worlds), Begun)
  {
    worlds, moves := Extend(cfg, [w], [], Calling(Activation));
    worlds, moves := Extend(cfg, worlds, moves, Preparing(CommitStart));
  }

  lemma SnapshotTaken(cfg: Config, w: World) returns (worlds: seq<World>, moves: seq<Move>)
    requires Init(cfg, w) && Alive(w.actor) && AllAdmitted(cfg) != []
    ensures Run(cfg, worlds, moves) && worlds[0] == w
    ensures Opened(w, Last(worlds), Merging(w.actor.current.generation, AllMerged(cfg), AllAdmitted(cfg)))
  {
    worlds, moves := WindowOpens(cfg, w);
    worlds, moves := Extend(cfg, worlds, moves, Preparing(CommitReadBase));
    worlds, moves := Extend(cfg, worlds, moves, Preparing(CommitSnapshot));
  }

  lemma PublicationCleared(cfg: Config, w: World) returns (worlds: seq<World>, moves: seq<Move>)
    requires Init(cfg, w) && Alive(w.actor) && AllAdmitted(cfg) != []
    ensures Run(cfg, worlds, moves) && worlds[0] == w
    ensures var v := Last(worlds);
            && v.commit == Cleared(w.actor.current.generation, AllMerged(cfg), AllAdmitted(cfg))
            && v.actor == w.actor && v.stream.appended == w.stream.appended
  {
    worlds, moves := SnapshotTaken(cfg, w);
    worlds, moves := Extend(cfg, worlds, moves, Publishing(CommitLock));
    worlds, moves := Extend(cfg, worlds, moves, Publishing(CommitCheck));
  }

  /** From every start there is a run in which zoxide's rows are published and fed to fzf. */
  lemma EnrichmentPublishes(cfg: Config, w: World) returns (worlds: seq<World>, moves: seq<Move>)
    requires Init(cfg, w) && Alive(w.actor) && AllAdmitted(cfg) != []
    ensures Run(cfg, worlds, moves) && worlds[0] == w
    ensures var v := Last(worlds);
            && v.enriched == Some(v.actor.current.generation) && v.actor.current.records == AllMerged(cfg)
            && v.stream.appended == Codec.Frame(cfg.base) + Codec.Frame(AllAdmitted(cfg))
  {
    worlds, moves := PublicationCleared(cfg, w);
    worlds, moves := Extend(cfg, worlds, moves, Enriching);
    worlds, moves := Extend(cfg, worlds, moves, Publishing(CommitWrite));
  }
}
