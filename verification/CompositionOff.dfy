/** What can no longer happen once publication is off, the stream closed or the coordinator barred, and what its
    lifecycle error holds. */
module CompositionOff {
  import opened Basics
  import opened Protocol
  import opened Actor
  import opened Gate
  import opened Events
  import opened Render
  import opened Composition
  import opened CompositionInv
  import opened CompositionRuns

  // ----- what every move keeps

  ghost predicate KeptByMoves(cfg: Config, inv: World -> bool) {
    forall w, m :: Good(cfg, w) && inv(w) && Possible(w, m) ==> inv(Moved(cfg, w, m))
  }

  lemma {:induction false} Throughout(cfg: Config, worlds: seq<World>, moves: seq<Move>, i: nat, j: nat,
                                      inv: World -> bool)
    requires Sane(cfg) && Run(cfg, worlds, moves) && i <= j < |worlds| && KeptByMoves(cfg, inv) && inv(worlds[i])
    ensures inv(worlds[j])
    decreases j
  {
    if i < j {
      Throughout(cfg, worlds, moves, i, j - 1, inv);
      OneMove(cfg, worlds, moves, j - 1, inv);
    }
  }

  lemma OneMove(cfg: Config, worlds: seq<World>, moves: seq<Move>, i: nat, inv: World -> bool)
    requires Sane(cfg) && Run(cfg, worlds, moves) && i < |moves| && KeptByMoves(cfg, inv) && inv(worlds[i])
    ensures inv(worlds[i + 1])
  {
    ReachableGood(cfg, worlds, moves, i);
    assert Possible(worlds[i], moves[i]);
  }

  // ----- publication off

  /** What a move may do about publication: only a live coordinator with publication on lets a commit through, only a
      commit that was let through publishes, and only a published one feeds the stream. */
  predicate Guarded(w: World, v: World) {
    && (v.commit.Cleared? && !w.commit.Cleared? ==> w.gate.active && !w.gate.terminal)
    && (v.commit.Over? && !w.commit.Over? ==> !v.gate.active)
    && (v.enriched != w.enriched ==> w.commit.Cleared? && v.enriched == Some(v.actor.current.generation))
    && (v.commit.Published? && !w.commit.Published? ==> w.commit.Cleared? && v.enriched.Some?)
    && (v.stream.appended != w.stream.appended ==> w.commit.Published?)
    && (v.stream.held && !w.stream.held ==> !w.stream.closed)
    && (w.stream.closed ==> v.stream.closed)
  }

  /** Only a reservation takes an ID, and only Activate activates. */
  predicate Numbered(w: World, m: Move, v: World) {
    && (!m.Reserving? ==> v.gate.nextEventID == w.gate.nextEventID)
    && (m != Calling(Activation) ==> v.gate.activated == w.gate.activated)
  }

  /** Nothing handed out, shown, served or reserved changes. */
  predicate Aside(w: World, v: World) {
    && v.outbox == w.outbox && v.view == w.view && v.served == w.served
    && v.gate.pendingEvents == w.gate.pendingEvents && (w.gate.terminal ==> v.gate.terminal)
  }

  predicate Commits(m: Move) { m.Preparing? || m.Publishing? || m.Enriching? || m.Quitting? }

  lemma PrepareGuarded(cfg: Config, w: World, m: Prepare)
    requires CanPrepare(w, m)
    ensures Guarded(w, Prepared(cfg, w, m)) && Aside(w, Prepared(cfg, w, m))
    ensures Prepared(cfg, w, m).handlers == w.handlers && Numbered(w, Preparing(m), Prepared(cfg, w, m))
  {
  }

  lemma PublishGuarded(w: World, m: Publication)
    requires CanPublish(w, m)
    ensures Guarded(w, PublishMoved(w, m)) && Aside(w, PublishMoved(w, m))
    ensures PublishMoved(w, m).handlers == w.handlers && Numbered(w, Publishing(m), PublishMoved(w, m))
  {
  }

  lemma QuitGuarded(w: World, m: Quit)
    requires CanQuit(w, m)
    ensures Guarded(w, QuitMoved(w, m)) && Aside(w, QuitMoved(w, m))
    ensures QuitMoved(w, m).handlers == w.handlers && Numbered(w, Quitting(m), QuitMoved(w, m))
  {
  }

  lemma CommitGuarded(cfg: Config, w: World, m: Move)
    requires Possible(w, m) && Commits(m)
    ensures Guarded(w, Moved(cfg, w, m)) && Aside(w, Moved(cfg, w, m))
    ensures Moved(cfg, w, m).handlers == w.handlers && Numbered(w, m, Moved(cfg, w, m))
  {
    match m
    case Preparing(prepare) => PrepareGuarded(cfg, w, prepare);
    case Publishing(publication) => PublishGuarded(w, publication);
    case Quitting(quit) => QuitGuarded(w, quit);
    case Enriching =>
  }

  lemma TalkGuarded(cfg: Config, w: World, m: Talk)
    requires CanTalk(w, m)
    ensures Guarded(w, Talked(cfg, w, m)) && Numbered(w, Talking(m), Talked(cfg, w, m))
  {
  }

  lemma SettleGuarded(w: World, m: Settle)
    requires CanSettle(w, m)
    ensures Guarded(w, Settled(w, m)) && Numbered(w, Settling(m), Settled(w, m))
  {
  }

  lemma LoadGuarded(w: World, m: LoadMove)
    requires CanLoad(w, m)
    ensures Guarded(w, LoadMoved(w, m)) && Numbered(w, Loading(m), LoadMoved(w, m))
    ensures LoadMoved(w, m).handlers == w.handlers
  {
  }

  lemma CallGuarded(w: World, m: Call)
    requires CanCall(w, m)
    ensures Guarded(w, Called(w, m)) && Numbered(w, Calling(m), Called(w, m)) && Called(w, m).handlers == w.handlers
  {
  }

  lemma MoveGuarded(cfg: Config, w: World, m: Move)
    requires Possible(w, m)
    ensures Guarded(w, Moved(cfg, w, m)) && Numbered(w, m, Moved(cfg, w, m))
  {
    if Commits(m) {
      CommitGuarded(cfg, w, m);
    } else if m.Talking? {
      TalkGuarded(cfg, w, m.talk);
    } else if m.Settling? {
      SettleGuarded(w, m.settle);
    } else if m.Loading? {
      LoadGuarded(w, m.load);
    } else if m.Calling? {
      CallGuarded(w, m.call);
    }
  }

  /** Publication off and nothing on its way. */
  predicate Unpublished(w: World) { !w.gate.active && w.enriched.None? && !w.commit.Cleared? }

  lemma UnpublishedStays(cfg: Config, w: World, m: Move)
    requires Good(cfg, w) && Unpublished(w) && Possible(w, m)
    ensures Unpublished(Moved(cfg, w, m)) && Moved(cfg, w, m).stream.appended == w.stream.appended
  {
    MoveGuarded(cfg, w, m);
    MoveConfined(cfg, w, m);
  }

  /** Once publication is off and no commit has been let through, nothing is ever enriched and nothing more is fed to
      fzf, however Stop, navigations and the commit interleave. */
  lemma PublicationOff(cfg: Config, worlds: seq<World>, moves: seq<Move>, i: nat, j: nat)
    requires Sane(cfg) && Run(cfg, worlds, moves) && i <= j < |worlds| && Unpublished(worlds[i])
    ensures Unpublished(worlds[j]) && worlds[j].stream.appended == worlds[i].stream.appended
  {
    var fed := worlds[i].stream.appended;
    var inv := (w: World) => Unpublished(w) && w.stream.appended == fed;
    forall w, m | Good(cfg, w) && inv(w) && Possible(w, m) ensures inv(Moved(cfg, w, m)) {
        UnpublishedStays(cfg, w, m); }
    Throughout(cfg, worlds, moves, i, j, inv);
  }

  /** A commit that is over, whether it published, was abandoned or never began, has turned publication off. */
  lemma CommitTurnsOff(cfg: Config, worlds: seq<World>, moves: seq<Move>, i: nat)
    requires Sane(cfg) && Run(cfg, worlds, moves) && i < |worlds|
    ensures worlds[i].commit.Over? ==> !worlds[i].gate.active
  {
    var inv := (w: World) => w.commit.Over? ==> !w.gate.active;
    forall w, m | Good(cfg, w) && inv(w) && Possible(w, m) ensures inv(Moved(cfg, w, m)) {
      MoveGuarded(cfg, w, m);
      MoveConfined(cfg, w, m);
    }
    Throughout(cfg, worlds, moves, 0, i, inv);
  }

  lemma ClosedStays(cfg: Config, w: World, m: Move)
    requires Good(cfg, w) && w.stream.closed && !w.stream.held && Possible(w, m)
    ensures var v := Moved(cfg, w, m);
            v.stream == w.stream && v.enriched == w.enriched
  {
    MoveGuarded(cfg, w, m);
  }

  /** Once the stream is closed, and nobody holds it, no enrichment is ever published and nothing is fed to fzf. */
  lemma ClosedForGood(cfg: Config, worlds: seq<World>, moves: seq<Move>, i: nat, j: nat)
    requires Sane(cfg) && Run(cfg, worlds, moves) && i <= j < |worlds|
    requires worlds[i].stream.closed && !worlds[i].stream.held
    ensures worlds[j].stream == worlds[i].stream && worlds[j].enriched == worlds[i].enriched
  {
    var stream, enriched := worlds[i].stream, worlds[i].enriched;
    var inv := (w: World) => w.stream == stream && w.enriched == enriched;
    forall w, m | Good(cfg, w) && inv(w) && Possible(w, m) ensures inv(Moved(cfg, w, m)) { ClosedStays(cfg, w, m); }
    Throughout(cfg, worlds, moves, i, j, inv);
  }

  /** Closing the stream is for good. */
  lemma CloseIsFinal(cfg: Config, worlds: seq<World>, moves: seq<Move>, i: nat, j: nat)
    requires Sane(cfg) && Run(cfg, worlds, moves) && i < j < |worlds| && moves[i].StreamClose?
    ensures worlds[j].stream.closed && worlds[j].stream.appended == worlds[i].stream.appended
    ensures worlds[j].enriched == worlds[i].enriched
  {
    ClosedForGood(cfg, worlds, moves, i + 1, j);
  }

  // ----- the coordinator's life

  /** The coordinator is activated at most once. */
  lemma ActivatedOnce(cfg: Config, worlds: seq<World>, moves: seq<Move>, i: nat, j: nat)
    requires Run(cfg, worlds, moves) && i < j < |moves| && moves[i] == Calling(Activation)
    ensures moves[j] != Calling(Activation)
  {
    RunOnward(cfg, worlds, moves, i + 1, j);
  }

  /** Not activated, and never to be: the parent has gone or publication was turned off before. */
  predicate Barred(w: World) { !w.gate.activated && (w.gate.parent != {} || !w.gate.active) }

  lemma BarredStays(cfg: Config, w: World, m: Move)
    requires Good(cfg, w) && Barred(w) && Possible(w, m)
    ensures !m.Reserving? && Barred(Moved(cfg, w, m))
    ensures Moved(cfg, w, m).gate.nextEventID == w.gate.nextEventID && Moved(cfg, w, m).enriched == w.enriched
  {
    MoveConfined(cfg, w, m);
    MoveGuarded(cfg, w, m);
    assert m != Calling(Activation) && !w.commit.Cleared?;
  }

  /** A coordinator whose parent went, or that was stopped, before it was activated never takes an event and never
      publishes anything. */
  lemma NeverActivated(cfg: Config, worlds: seq<World>, moves: seq<Move>, i: nat, j: nat)
    requires Sane(cfg) && Run(cfg, worlds, moves) && i <= j < |worlds| && Barred(worlds[i])
    ensures Barred(worlds[j]) && worlds[j].gate.nextEventID == worlds[i].gate.nextEventID
    ensures worlds[j].enriched == worlds[i].enriched
  {
    var last, enriched := worlds[i].gate.nextEventID, worlds[i].enriched;
    var inv := (w: World) => Barred(w) && w.gate.nextEventID == last && w.enriched == enriched;
    forall w, m | Good(cfg, w) && inv(w) && Possible(w, m) ensures inv(Moved(cfg, w, m)) { BarredStays(cfg, w, m); }
    Throughout(cfg, worlds, moves, i, j, inv);
  }

  /** The cause of a Stop and the parent's are in the lifecycle error from then on, unless it had been reported already;
      what Wait reports includes the parent's cause; and what was reported with publication off stays as it is. */
  lemma CausesReported(cfg: Config, worlds: seq<World>, moves: seq<Move>, i: nat, j: nat, cause: set<Error>)
    requires Run(cfg, worlds, moves) && i < j < |worlds|
    ensures var g, h := worlds[i].gate, worlds[j].gate;
            && (moves[i] == Calling(Stopping(cause)) && (g.active || !g.terminalFinalized) ==>
                  cause <= h.terminalErr && g.parent <= h.terminalErr)
            && (moves[i] == Calling(WaitReturn) && !g.terminalFinalized ==> g.parent <= h.terminalErr)
            && (g.terminalFinalized && !g.active ==> h.terminalErr == g.terminalErr)
            && (g.parent != {} ==> h.parent == g.parent)
            && (moves[i].Calling? && moves[i].call.ParentCancellation? && g.parent == {} ==>
                  h.parent == {moves[i].call.reason})
  {
    RunOnward(cfg, worlds, moves, i, j);
    RunOnward(cfg, worlds, moves, i + 1, j);
  }
}
