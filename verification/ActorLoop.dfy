/** The actor's loop as it is written: one object whose select arms update its fields in place. Each arm is proved to
    compute the step of module Actor that the theorems of module ActorRuns are about. */
module ActorLoop {
  import opened Basics
  import opened Protocol
  import opened Actor

  class Loop {
    var current: Snapshot
    var pending: Option<Pending>
    var replacement: Option<ApplyCommand>
    var shutdownErr: Option<Error>
    var closing: bool
    var nextID: nat
    var exited: bool
    const hasGenerator: bool
    var dead: set<Ctx>
    ghost var builds: set<nat>
    ghost var accepted: set<nat>
    ghost var answers: map<nat, seq<Reply>>
    ghost var cleanups: map<nat, nat>
    ghost var published: map<nat, seq<Record>>

    ghost function View(): ActorState
      reads this
    {
      ActorState(current, pending, replacement, shutdownErr, closing, nextID, exited, hasGenerator, dead,
                 builds, accepted, answers, cleanups, published)
    }

    constructor (hasGenerator: bool, state: State)
      ensures View() == Initial(hasGenerator, state)
    {
      this.hasGenerator := hasGenerator;
      current := Snapshot(0, state, []);
      pending, replacement, shutdownErr := None, None, None;
      closing, nextID, exited, dead := false, 0, false, {};
      builds, accepted, answers, cleanups := {}, {}, map[], map[];
      published := map[0 := []];
    }

    method ReplyApply(command: ApplyCommand, reply: Reply)
      modifies this`answers
      ensures View() == Answer(old(View()), command, reply)
    {
      answers := answers[command.id := Answers(View(), command.id) + [reply]];
    }

    method ReplyApplyError(command: ApplyCommand, err: Error)
      modifies this`answers, this`cleanups
      ensures View() == Refuse(old(View()), command, err)
    {
      cleanups := cleanups[command.id := Cleanups(View(), command.id) + 1];
      ReplyApply(command, Failed(err));
    }

    method NextGeneration() returns (generation: nat, ok: bool)
      modifies this`nextID
      ensures ok == (old(nextID) != MAX_UINT64)
      ensures nextID == (if ok then old(nextID) + 1 else old(nextID))
      ensures ok ==> generation == nextID
    {
      if nextID == MAX_UINT64 {
        return 0, false;
      }
      nextID := nextID + 1;
      return nextID, true;
    }

    method StartTransition(command: ApplyCommand)
      requires pending.None?
      modifies this`current, this`pending, this`nextID, this`builds, this`answers, this`cleanups
      ensures View() == Start(old(View()), command)
    {
      if command.ctx in dead {
        ReplyApplyError(command, Cause(command.ctx));
        return;
      }
      if command.proposal.base != current.generation {
        ReplyApplyError(command, StaleGeneration);
        return;
      }
      if command.proposal.build.None? {
        current := current.(state := command.proposal.state);
        ReplyApply(command, Done(current, command.proposal.effect));
        return;
      }
      if !hasGenerator {
        ReplyApplyError(command, NilGenerator);
        return;
      }
      var generation, ok := NextGeneration();
      if !ok {
        ReplyApplyError(command, GenerationLimit);
        return;
      }
      pending := Some(Pending(generation, command, false, None));
      builds := builds + {generation};
    }

    method OnApply(command: ApplyCommand)
      modifies this
      ensures View() == Receive(old(View()), command)
    {
      accepted := accepted + {command.id};
      if shutdownErr.Some? {
        ReplyApplyError(command, shutdownErr.value);
        return;
      }
      if command.ctx in dead {
        ReplyApplyError(command, Cause(command.ctx));
        return;
      }
      if command.proposal.base != current.generation {
        ReplyApplyError(command, StaleGeneration);
        return;
      }
      if pending.None? {
        StartTransition(command);
        return;
      }
      if pending.value.retiring || replacement.Some? {
        ReplyApplyError(command, TransitionPending);
        return;
      }
      pending := Some(pending.value.(retiring := true, replyErr := Some(Superseded)));
      replacement := Some(command);
    }

    method OnEnrich(ctx: Ctx, base: nat, records: seq<Record>) returns (err: Option<Error>)
      modifies this`current, this`nextID, this`published
      ensures err == EnrichError(old(View()), ctx, base)
      ensures View() == Enrich(old(View()), ctx, base, records)
    {
      if shutdownErr.Some? {
        return shutdownErr;
      } else if ctx in dead {
        return Some(Cause(ctx));
      } else if SessionCtx in dead {
        return Some(Cause(SessionCtx));
      } else if base != current.generation {
        return Some(StaleGeneration);
      } else if pending.Some? {
        return Some(TransitionPending);
      }
      var generation, ok := NextGeneration();
      if !ok {
        return Some(GenerationLimit);
      }
      current := Snapshot(generation, current.state, records);
      published := published[generation := records];
      return None;
    }

    /** The snapshotCommand arm: a read that names the generation it expects. */
    method OnSnapshot(ctx: Ctx, generation: nat) returns (reply: Result<Snapshot, Error>)
      ensures reply.Ok? <==> shutdownErr.None? && ctx !in dead && generation == current.generation
      ensures reply.Ok? ==> reply.value == current
      ensures reply.Err? && shutdownErr.None? && ctx !in dead ==> reply.error == StaleGeneration
    {
      if shutdownErr.Some? {
        return Err(shutdownErr.value);
      } else if ctx in dead {
        return Err(Cause(ctx));
      } else if generation != current.generation {
        return Err(StaleGeneration);
      }
      return Ok(current);
    }

    method SettlePending(outcome: BuildOutcome)
      requires pending.Some?
      modifies this`current, this`pending, this`answers, this`cleanups, this`published
      ensures View() == Settle(old(View()), old(pending).value, Verdict(old(View()), old(pending).value, outcome))
    {
      var p := pending.value;
      pending := None;
      if p.retiring {
        ReplyApplyError(p.command, if p.replyErr.Some? then p.replyErr.value else Closed);
      } else if p.command.ctx in dead {
        ReplyApplyError(p.command, Cause(p.command.ctx));
      } else if SessionCtx in dead {
        ReplyApplyError(p.command, Cause(SessionCtx));
      } else if outcome.BuildError? {
        ReplyApplyError(p.command, BuildFailed);
      } else if p.command.proposal.base != current.generation {
        ReplyApplyError(p.command, StaleGeneration);
      } else {
        var effect := p.command.proposal.effect.(reload := p.id);
        current := Snapshot(p.id, p.command.proposal.state, outcome.records);
        published := published[p.id := outcome.records];
        ReplyApply(p.command, Done(current, effect));
      }
    }

    method OnCompletion(id: nat, outcome: BuildOutcome)
      modifies this
      ensures View() == Complete(old(View()), id, outcome)
    {
      builds := builds - {id};
      if pending.None? || id != pending.value.id {
        return;
      }
      SettlePending(outcome);
      if replacement.Some? && shutdownErr.None? {
        var next := replacement.value;
        replacement := None;
        StartTransition(next);
      }
    }

    method RetireCurrent(err: Error)
      modifies this`pending
      ensures View() == RetirePending(old(View()), err)
    {
      if pending.Some? && !pending.value.retiring {
        pending := Some(pending.value.(retiring := true, replyErr := Some(err)));
      }
    }

    method OnClose()
      modifies this`closing, this`shutdownErr, this`pending
      ensures View() == CloseActor(old(View()))
    {
      if closing {
        return;
      }
      closing := true;
      shutdownErr := Some(Closed);
      RetireCurrent(Closed);
    }

    method OnCallerDone()
      requires Enabled(View(), SCallerDone)
      modifies this`pending
      ensures View() == CallerDone(old(View()))
    {
      pending := Some(pending.value.(retiring := true, replyErr := Some(Cause(pending.value.command.ctx))));
    }

    method OnSessionDone()
      requires Enabled(View(), SSessionDone)
      modifies this`shutdownErr, this`pending
      ensures View() == SessionDone(old(View()))
    {
      shutdownErr := Some(Cause(SessionCtx));
      RetireCurrent(Cause(SessionCtx));
    }

    /** The top of the loop: leave once nothing is pending and shutdown has begun. */
    method TryExit() returns (left: bool)
      modifies this`replacement, this`answers, this`cleanups, this`exited
      ensures left == Draining(old(View()))
      ensures View() == (if left then Drain(old(View())) else old(View()))
    {
      if pending.None? && shutdownErr.Some? {
        if replacement.Some? {
          var last := replacement.value;
          replacement := None;
          ReplyApplyError(last, shutdownErr.value);
        }
        exited := true;
        return true;
      }
      return false;
    }
  }
}
