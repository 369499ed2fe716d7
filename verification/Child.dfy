/**
 The life of a child process on Unix (internal/process/process_unix.go:155-300): the exit observer, the cancellation
 watcher, the waiter and outside callers of KillTree meet in critical sections under one mutex. One critical section,
 or one system call between them, is one step; system call results and the moment of cancellation are arbitrary.
 */
module Child {
  import opened Basics

  datatype Failure = Cancelled | Exit(code: nat) | Pump | Observer | Kill | Reap

  /** What Wait reports; delayed marks the wait-delay wrapper around the primary error. */
  datatype Outcome = Outcome(primary: Option<Failure>, delayed: bool)

  /** Where the one caller that gets to wait is. */
  datatype Waiter =
    | Idle
    | HasResult(observed: Option<Failure>)
    | HasCancel(observed: Option<Failure>, cancel: Option<Failure>)
    | Joined(observed: Option<Failure>, cancel: Option<Failure>, delayed: bool, pump: Option<Failure>)
    | Sealed(observed: Option<Failure>, cancel: Option<Failure>, delayed: bool, pump: Option<Failure>)
    | Returned(outcome: Outcome)

  /** The fields lifeMu guards. */
  datatype Shared = Shared(processExited: bool, targetValid: bool, killIssued: bool, killErr: Option<Failure>,
                           cancelErr: Option<Failure>)

  datatype Life = Life(
    shared: Shared,
    result: Option<Option<Failure>>,  // what the exit observer sent
    watchDone: bool,
    waiter: Waiter,
    cancelled: bool,                  // the context
    reaped: bool,                     // the PID was collected and may be reused
    kills: nat,                       // signals sent
    lateKills: nat)                   // signals sent to a PID already collected

  // ----- critical sections

  predicate Kills(s: Shared) { s.targetValid && !s.killIssued }

  /** killTreeLocked; signal is what syscall.Kill reports, ESRCH counting as success. */
  function KillTreeLocked(s: Shared, signal: Option<Failure>): Shared {
    if Kills(s) then s.(killIssued := true, killErr := signal) else s
  }

  /** The section of reap, for an observer that ended with observed. */
  function ReapSection(s: Shared, observed: Option<Failure>, signal: Option<Failure>): Shared {
    var s := if observed.Some? then KillTreeLocked(s, signal).(targetValid := false) else s;
    s.(processExited := true)
  }

  /** The section of watchCancellation after the context ended. */
  function WatchSection(s: Shared, signal: Option<Failure>): Shared {
    if s.processExited then s else KillTreeLocked(s.(cancelErr := Some(Cancelled)), signal)
  }

  /** The section of Wait before it collects the PID: from here on nobody may signal it. */
  function SealSection(s: Shared): Shared { s.(targetValid := false) }

  /** What Wait reports: cancellation first, then how the process ended, then the pumps, then the observer. */
  function Report(observed: Option<Failure>, cancel: Option<Failure>, delayed: bool, pump: Option<Failure>,
                  status: Option<Failure>): Outcome
  {
    Outcome(if cancel.Some? then cancel
            else if status.Some? then status
            else if pump.Some? then pump
            else observed,
            delayed)
  }

  // ----- steps

  datatype Step =
    | CancelContext
    | ObserveExit(observed: Option<Failure>, signal: Option<Failure>)
    | WatchExit
    | WatchCancel(signal: Option<Failure>)
    | OutsideKill(signal: Option<Failure>)
    | TakeResult
    | ReadCancel
    | JoinPumps(delayed: bool, pump: Option<Failure>, signal: Option<Failure>)
    | Seal
    | Collect(status: Option<Failure>)

  /** System calls never fail with the context's error. */
  predicate Foreign(f: Option<Failure>) { f != Some(Cancelled) }

  predicate Enabled(l: Life, step: Step) {
    match step
    case CancelContext => true
    case ObserveExit(observed, _) => l.result.None? && (observed.None? || observed == Some(Observer))
    case WatchExit => !l.watchDone && l.shared.processExited
    case WatchCancel(_) => !l.watchDone && l.cancelled
    case OutsideKill(_) => true
    case TakeResult => l.waiter.Idle? && l.result.Some?
    case ReadCancel => l.waiter.HasResult? && l.watchDone
    case JoinPumps(_, pump, _) => l.waiter.HasCancel? && Foreign(pump)
    case Seal => l.waiter.Joined?
    case Collect(status) => l.waiter.Sealed? && Foreign(status)
  }

  /** The sections that may signal, with the signal counted. */
  function Signal(l: Life, kills: bool, shared: Shared): Life {
    if kills then l.(shared := shared, kills := l.kills + 1, lateKills := l.lateKills + if l.reaped then 1 else 0)
    else l.(shared := shared)
  }

  function Next(l: Life, step: Step): Life
    requires Enabled(l, step)
  {
    match step
    case CancelContext => l.(cancelled := true)
    case ObserveExit(observed, signal) =>
      Signal(l, observed.Some? && Kills(l.shared), ReapSection(l.shared, observed, signal)).(result := Some(observed))
    case WatchExit => l.(watchDone := true)
    case WatchCancel(signal) =>
      Signal(l, !l.shared.processExited && Kills(l.shared), WatchSection(l.shared, signal)).(watchDone := true)
    case OutsideKill(signal) => Signal(l, Kills(l.shared), KillTreeLocked(l.shared, signal))
    case TakeResult => l.(waiter := HasResult(l.result.value))
    case ReadCancel => l.(waiter := HasCancel(l.waiter.observed, l.shared.cancelErr))
    case JoinPumps(delayed, pump, signal) =>
      var w := Joined(l.waiter.observed, l.waiter.cancel, delayed, pump);
      if delayed then Signal(l, Kills(l.shared), KillTreeLocked(l.shared, signal)).(waiter := w) else l.(waiter := w)
    case Seal =>
      var w := l.waiter;
      l.(shared := SealSection(l.shared), waiter := Sealed(w.observed, w.cancel, w.delayed, w.pump))
    case Collect(status) =>
      var w := l.waiter;
      l.(reaped := true, waiter := Returned(Report(w.observed, w.cancel, w.delayed, w.pump, status)))
  }

  const STARTED := Life(Shared(false, true, false, None, None), None, false, Idle, false, false, 0, 0)

  ghost predicate Run(lives: seq<Life>, steps: seq<Step>) {
    && |lives| == |steps| + 1 && lives[0] == STARTED
    && forall i {:trigger steps[i]} :: 0 <= i < |steps| ==>
         Enabled(lives[i], steps[i]) && lives[i + 1] == Next(lives[i], steps[i])
  }

  // ----- the invariant

  ghost predicate Signals(l: Life) {
    && l.kills == (if l.shared.killIssued then 1 else 0)
    && l.lateKills == 0
    && (l.waiter.Sealed? || l.waiter.Returned? ==> !l.shared.targetValid)
    && (l.reaped <==> l.waiter.Returned?)
  }

  ghost predicate Causes(l: Life) {
    && (l.result.Some? <==> l.shared.processExited)
    && (l.shared.cancelErr.Some? ==> l.watchDone && l.cancelled && l.shared.cancelErr == Some(Cancelled))
    && (l.result.Some? ==> Foreign(l.result.value))
    && match l.waiter
       case Idle => true
       case HasResult(observed) => l.result == Some(observed)
       case HasCancel(observed, cancel) => l.result == Some(observed) && l.watchDone && cancel == l.shared.cancelErr
       case Joined(observed, cancel, _, pump) =>
         l.result == Some(observed) && l.watchDone && cancel == l.shared.cancelErr && Foreign(pump)
       case Sealed(observed, cancel, _, pump) =>
         l.result == Some(observed) && l.watchDone && cancel == l.shared.cancelErr && Foreign(pump)
       case Returned(outcome) =>
         l.result.Some? && l.watchDone && (outcome.primary == Some(Cancelled) <==> l.shared.cancelErr.Some?)
  }

  lemma StepKept(l: Life, step: Step)
    requires Signals(l) && Causes(l) && Enabled(l, step)
    ensures Signals(Next(l, step)) && Causes(Next(l, step))
  {
  }

  lemma {:induction false} Reachable(lives: seq<Life>, steps: seq<Step>, i: nat)
    requires Run(lives, steps) && i < |lives|
    ensures Signals(lives[i]) && Causes(lives[i])
  {
    if i > 0 {
      Reachable(lives, steps, i - 1);
      StepKept(lives[i - 1], steps[i - 1]);
    }
  }

  // ----- what every run guarantees

  /** At most one signal is ever sent, and none to a PID that was already collected. */
  lemma OneKillNeverLate(lives: seq<Life>, steps: seq<Step>, i: nat)
    requires Run(lives, steps) && i < |lives|
    ensures lives[i].kills <= 1 && lives[i].lateKills == 0
  {
    Reachable(lives, steps, i);
  }

  /** At step k the watcher found the context ended and no exit observed yet. */
  predicate Records(lives: seq<Life>, steps: seq<Step>, k: nat)
    requires k < |steps| && k < |lives|
  {
    steps[k].WatchCancel? && !lives[k].shared.processExited
  }

  lemma {:induction false} RecordedIff(lives: seq<Life>, steps: seq<Step>, i: nat)
    requires Run(lives, steps) && i < |lives|
    ensures lives[i].shared.cancelErr.Some? <==> exists k :: 0 <= k < i && Records(lives, steps, k)
  {
    if i > 0 {
      RecordedIff(lives, steps, i - 1);
      RecordStep(lives[i - 1], steps[i - 1]);
      assert Records(lives, steps, i - 1) <==> steps[i - 1].WatchCancel? && !lives[i - 1].shared.processExited;
    }
  }

  lemma RecordStep(l: Life, step: Step)
    requires Enabled(l, step)
    ensures Next(l, step).shared.cancelErr.Some? <==>
              l.shared.cancelErr.Some? || (step.WatchCancel? && !l.shared.processExited)
  {
  }

  /** Wait reports the cancellation exactly when the watcher recorded it before the exit was observed, whatever the
      process, the pumps and the observer came to; the wait-delay wrapper does not hide it. */
  lemma WaitReportsCancelIff(lives: seq<Life>, steps: seq<Step>, i: nat)
    requires Run(lives, steps) && i < |lives| && lives[i].waiter.Returned?
    ensures lives[i].waiter.outcome.primary == Some(Cancelled) <==> exists k :: 0 <= k < i && Records(lives, steps, k)
  {
    Reachable(lives, steps, i);
    RecordedIff(lives, steps, i);
  }

  /** The pumps of this Wait had to be cut off. */
  predicate CutOff(w: Waiter) {
    (w.Joined? && w.delayed) || (w.Sealed? && w.delayed) || (w.Returned? && w.outcome.delayed)
  }

  /** Until the exit was observed the tree can be signalled, and until Wait seals it only a signal takes that away. A
      recorded cancellation, an exit that could not be observed and pumps cut off have all signalled. */
  predicate Reaching(l: Life) {
    && (!l.shared.processExited ==> l.shared.targetValid)
    && (!l.shared.targetValid && !l.waiter.Sealed? && !l.waiter.Returned? ==> l.shared.killIssued)
    && (l.shared.cancelErr.Some? || l.result == Some(Some(Observer)) || CutOff(l.waiter) ==> l.shared.killIssued)
  }

  lemma ReachingKept(l: Life, step: Step)
    requires Causes(l) && Reaching(l) && Enabled(l, step)
    ensures Reaching(Next(l, step))
  {
  }

  /** Whenever a cancellation was recorded, the exit could not be observed or the pumps were cut off, exactly one signal
      has been sent. */
  lemma {:induction false} CancellationKills(lives: seq<Life>, steps: seq<Step>, i: nat)
    requires Run(lives, steps) && i < |lives|
    ensures Reaching(lives[i])
    ensures lives[i].shared.cancelErr.Some? || lives[i].result == Some(Some(Observer)) || CutOff(lives[i].waiter) ==>
              lives[i].kills == 1
  {
    Reachable(lives, steps, i);
    if i > 0 {
      CancellationKills(lives, steps, i - 1);
      Reachable(lives, steps, i - 1);
      ReachingKept(lives[i - 1], steps[i - 1]);
    }
  }

  // ----- what Wait reports

  /** Among the first i steps the observer ended with this. */
  ghost predicate Observed(steps: seq<Step>, i: nat, observed: Option<Failure>)
    requires i <= |steps|
  {
    exists k :: 0 <= k < i && steps[k].ObserveExit? && steps[k].observed == observed
  }

  ghost predicate Pumped(steps: seq<Step>, i: nat, delayed: bool, pump: Option<Failure>)
    requires i <= |steps|
  {
    exists k :: 0 <= k < i && steps[k].JoinPumps? && steps[k].delayed == delayed && steps[k].pump == pump
  }

  ghost predicate Collected(steps: seq<Step>, i: nat, status: Option<Failure>)
    requires i <= |steps|
  {
    exists k :: 0 <= k < i && steps[k] == Collect(status)
  }

  /** The outcome without a cancellation: the exit status, else the pumps' error, else the observer's. */
  predicate Blames(o: Outcome, status: Option<Failure>, pump: Option<Failure>, observed: Option<Failure>) {
    && (status.Some? ==> o.primary == status)
    && (status.None? && pump.Some? ==> o.primary == pump)
    && (status.None? && pump.None? ==> o.primary == observed)
  }

  ghost predicate Told(steps: seq<Step>, i: nat, l: Life)
    requires i <= |steps|
  {
    && (l.result.Some? ==> Observed(steps, i, l.result.value))
    && match l.waiter
       case Joined(_, _, delayed, pump) => Pumped(steps, i, delayed, pump)
       case Sealed(_, _, delayed, pump) => Pumped(steps, i, delayed, pump)
       case Returned(o) =>
         exists status, pump ::
           && Collected(steps, i, status) && Pumped(steps, i, o.delayed, pump)
           && (l.shared.cancelErr.None? ==> l.result.Some? && Blames(o, status, pump, l.result.value))
       case _ => true
  }

  lemma ToldLater(steps: seq<Step>, i: nat, l: Life)
    requires i < |steps| && Told(steps, i, l)
    ensures Told(steps, i + 1, l)
  {
    if l.waiter.Returned? {
      var status, pump :| && Collected(steps, i, status) && Pumped(steps, i, l.waiter.outcome.delayed, pump)
                          && (l.shared.cancelErr.None? ==>
                                l.result.Some? && Blames(l.waiter.outcome, status, pump, l.result.value));
      assert Collected(steps, i + 1, status) && Pumped(steps, i + 1, l.waiter.outcome.delayed, pump);
    }
  }

  lemma ToldStep(l: Life, steps: seq<Step>, i: nat)
    requires i < |steps| && Told(steps, i, l) && Signals(l) && Causes(l) && Enabled(l, steps[i])
    ensures Told(steps, i + 1, Next(l, steps[i]))
  {
    ToldLater(steps, i, l);
    var step := steps[i];
    match step
    case ObserveExit(observed, _) => assert Observed(steps, i + 1, observed);
    case JoinPumps(delayed, pump, _) => assert Pumped(steps, i + 1, delayed, pump);
    case Collect(status) => assert Collected(steps, i + 1, status);
    case _ =>
  }

  lemma {:induction false} ReachableTold(lives: seq<Life>, steps: seq<Step>, i: nat)
    requires Run(lives, steps) && i < |lives|
    ensures Told(steps, i, lives[i])
  {
    if i > 0 {
      ReachableTold(lives, steps, i - 1);
      Reachable(lives, steps, i - 1);
      ToldStep(lives[i - 1], steps, i - 1);
    }
  }

  /** A Wait without a recorded cancellation reports how the process ended, else what the pumps came to, else the
      observer's error, and marks the outcome exactly when the pumps had to be cut off. */
  lemma WaitReportsExit(lives: seq<Life>, steps: seq<Step>, i: nat)
    requires Run(lives, steps) && i < |lives| && lives[i].waiter.Returned? && lives[i].shared.cancelErr.None?
    ensures exists status, pump, observed ::
              && Collected(steps, i, status) && Pumped(steps, i, lives[i].waiter.outcome.delayed, pump)
              && Observed(steps, i, observed) && Blames(lives[i].waiter.outcome, status, pump, observed)
  {
    ReachableTold(lives, steps, i);
    assert Observed(steps, i, lives[i].result.value);
  }

  /** Two lives that differ in nothing but whether the context has ended. */
  predicate Settled(l: Life, m: Life) {
    && m.shared == l.shared && m.result == l.result && m.watchDone == l.watchDone && m.waiter == l.waiter
    && m.reaped == l.reaped && m.kills == l.kills && m.lateKills == l.lateKills
  }

  lemma StepAfterWait(l: Life, step: Step)
    requires Signals(l) && Causes(l) && l.waiter.Returned? && Enabled(l, step)
    ensures Settled(l, Next(l, step))
  {
  }

  lemma SettledTrans(l: Life, m: Life, n: Life)
    requires Settled(l, m) && Settled(m, n)
    ensures Settled(l, n)
  {
  }

  /** Wait joins everyone: once it has returned, no later step of any party changes anything, and KillTree only reports
      what the one signal came to. */
  lemma {:induction false} NothingAfterWait(lives: seq<Life>, steps: seq<Step>, i: nat, j: nat)
    requires Run(lives, steps) && i <= j < |lives| && lives[i].waiter.Returned?
    ensures Settled(lives[i], lives[j])
    decreases j
  {
    if i < j {
      NothingAfterWait(lives, steps, i, j - 1);
      Reachable(lives, steps, j - 1);
      StepAfterWait(lives[j - 1], steps[j - 1]);
      SettledTrans(lives[i], lives[j - 1], Next(lives[j - 1], steps[j - 1]));
    }
  }

  // ----- the object

  class ChildProcess {
    var processExited: bool
    var targetValid: bool
    var killIssued: bool
    var killErr: Option<Failure>
    var cancelErr: Option<Failure>

    ghost function View(): Shared
      reads this
    {
      Shared(processExited, targetValid, killIssued, killErr, cancelErr)
    }

    constructor ()
      ensures View() == STARTED.shared
    {
      processExited, targetValid, killIssued, killErr, cancelErr := false, true, false, None, None;
    }

    /** signals says whether syscall.Kill was called. */
    method KillTree(signal: Option<Failure>) returns (err: Option<Failure>, signals: bool)
      modifies this`killIssued, this`killErr
      ensures View() == KillTreeLocked(old(View()), signal)
      ensures signals == Kills(old(View())) && err == killErr
    {
      if !targetValid || killIssued {
        return killErr, false;
      }
      killIssued := true;
      killErr := signal;
      return killErr, true;
    }

    method ReapLocked(observed: Option<Failure>, signal: Option<Failure>) returns (signals: bool)
      modifies this`processExited, this`targetValid, this`killIssued, this`killErr
      ensures View() == ReapSection(old(View()), observed, signal)
      ensures signals == (observed.Some? && Kills(old(View())))
    {
      signals := false;
      if observed.Some? {
        var ignored;
        ignored, signals := KillTree(signal);
        targetValid := false;
      }
      processExited := true;
    }

    method WatchLocked(signal: Option<Failure>) returns (signals: bool)
      modifies this`cancelErr, this`killIssued, this`killErr
      ensures View() == WatchSection(old(View()), signal)
      ensures signals == (!old(processExited) && Kills(old(View())))
    {
      if processExited {
        return false;
      }
      cancelErr := Some(Cancelled);
      var ignored;
      ignored, signals := KillTree(signal);
    }

    method SealLocked()
      modifies this`targetValid
      ensures View() == SealSection(old(View()))
    {
      targetValid := false;
    }
  }
}
