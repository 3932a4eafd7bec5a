/** Which failure a session records and which reason it ends with, read off what happened to it: its notices,
    its outcome, or the exception. */
module SessionReasons {
  import opened Wrappers
  import opened SessionStory

  // ---- The notices ----

  // The session finds nothing wrong with the report.
  predicate Good(notice: Notice) {
    match notice
    case PreparedReport(mismatch, problem) => !mismatch && problem.None?
    case ProgressReport(problem) => problem.None?
    case OutputReport(_, _) => true
  }

  // What it records of a report it rejects: a wrong description, a report it cannot use before the run has
  // started, or one from the running session.
  function Complaint(notice: Notice): SessionFailure
    requires !Good(notice)
  {
    match notice
    case PreparedReport(mismatch, problem) =>
      if mismatch then SessionFailure(InternalError, RuntimeStart, StartupFailure)
      else SessionFailure(problem.value, Capability, StartupFailure)
    case ProgressReport(problem) => SessionFailure(problem.value, RuntimeExecution, RuntimeFailure)
  }

  // Notice i is the first that is rejected.
  ghost predicate FirstBad(notices: seq<Notice>, i: nat) {
    i < |notices| && !Good(notices[i]) && forall j :: 0 <= j < i ==> Good(notices[j])
  }

  ghost predicate AllGood(notices: seq<Notice>) {
    forall i :: 0 <= i < |notices| ==> Good(notices[i])
  }

  // One more notice: the failure so far, or what is wrong with this one.
  lemma SeenFails(w: Watched, notice: Notice)
    ensures FirstWrong(Seen(w, notice).moments) ==
            if FirstWrong(w.moments).Some? then FirstWrong(w.moments)
            else if Good(notice) then None else Some(Complaint(notice))
  {
    hide FirstFailure, Events;
    match notice
    case PreparedReport(mismatch, problem) => WrongAppends(w.moments, PreparedFailure(mismatch, problem));
    case ProgressReport(problem) =>
      WrongAppends(w.moments, ReportFailure(problem));
      ToldIsNotWrong(w.moments, StateChanged(Running), Executing);
      assert w.moments + [] == w.moments;
    case OutputReport(id, output) =>
      var one := w.moments + [Told(OutputChanged(id, output), w.phase)];
      ToldIsNotWrong(w.moments, OutputChanged(id, output), w.phase);
      ToldIsNotWrong(one, OutputReady(id), w.phase);
      assert Seen(w, notice).moments == if output.Running? then one + [Told(OutputReady(id), w.phase)] else one;
  }

  lemma ToldIsNotWrong(moments: seq<Moment>, event: Event, phase: Phase)
    ensures FirstWrong(moments + [Told(event, phase)]) == FirstWrong(moments)
  {
    MomentAppends(moments, Told(event, phase), false, (k: nat) => false);
  }

  lemma OpeningIsGood()
    ensures FirstWrong(OPENING.moments).None?
  {
    assert OPENING.moments == [] + [Told(StateChanged(Starting), Creating)];
    ToldIsNotWrong([], StateChanged(Starting), Creating);
  }

  /** While the controller runs, the recorded failure is that of the first report the session rejects, and there
      is none exactly if it rejects none. */
  lemma {:induction false} FirstBadNoticeFails(notices: seq<Notice>)
    ensures FirstWrong(Watch(notices).moments).None? <==> AllGood(notices)
    ensures forall i: nat :: FirstBad(notices, i) ==> FirstWrong(Watch(notices).moments) == Some(Complaint(notices[i]))
    decreases |notices|
  {
    hide FirstFailure, Events, Seen;
    if notices == [] {
      OpeningIsGood();
    } else {
      var n := |notices| - 1;
      var front := notices[..n];
      FirstBadNoticeFails(front);
      SeenFails(Watch(front), notices[n]);
      forall i: nat | FirstBad(notices, i)
        ensures FirstWrong(Watch(notices).moments) == Some(Complaint(notices[i]))
      {
        if i < n { assert FirstBad(front, i); } else { assert AllGood(front); }
      }
      if FirstWrong(Watch(front).moments).None? {
        assert forall i :: 0 <= i < n ==> front[i] == notices[i];
      } else {
        var i :| 0 <= i < n && !Good(front[i]);
        assert !Good(notices[i]);
      }
    }
  }

  // Notice i reports progress, and none before it was rejected.
  ghost predicate StartsRunning(notices: seq<Notice>, i: nat) {
    i < |notices| && notices[i] == ProgressReport(None) && forall j :: 0 <= j < i ==> Good(notices[j])
  }

  lemma SeenRuns(w: Watched, notice: Notice)
    ensures Seen(w, notice).running <==>
            w.running || (notice == ProgressReport(None) && FirstWrong(w.moments).None?)
  {
  }

  /** RUNNING is told exactly if there is a good report of progress before anything is rejected. */
  lemma {:induction false} RunningMeans(notices: seq<Notice>)
    ensures Watch(notices).running <==> exists i: nat :: StartsRunning(notices, i)
    decreases |notices|
  {
    hide FirstFailure, Events, Seen;
    if notices != [] {
      var n := |notices| - 1;
      var front := notices[..n];
      RunningMeans(front);
      FirstBadNoticeFails(front);
      SeenRuns(Watch(front), notices[n]);
      if i: nat :| StartsRunning(front, i) { assert StartsRunning(notices, i); }
      if i: nat :| StartsRunning(notices, i) {
        if i < n { assert StartsRunning(front, i); } else { assert AllGood(front); }
      }
      if notices[n] == ProgressReport(None) && AllGood(front) { assert StartsRunning(notices, n); }
    }
  }

  // ---- Stages and reasons ----

  // How far the controller had come.
  function Progress(stage: RunStage): nat {
    match stage
    case PolicyValidation => 0
    case StopSeen => 1
    case Preflighting => 2
    case ExecutableGraphBuild => 3
    case PreparedNotification => 4
    case RuntimeCompile => 5
    case RuntimeNodeRegistration => 6
    case RuntimeStarting => 7
    case RuntimeProgress => 8
    case RuntimeCompletion => 9
    case RunCompleted => 10
  }

  /** A failure of the controller counts as a requested stop if it was cancelled or the caller stopped it,
      otherwise as a failure at run time from the first progress on, and as one at startup before. */
  lemma ControllerReasonMeans(error: ErrorCode, stage: RunStage, end: EndReason)
    ensures var requested, running := error.Cancelled? || end.CallerStop?, Progress(RuntimeProgress) <= Progress(stage);
            && (ControllerReason(error, stage, end).RequestedStop? <==> requested)
            && (ControllerReason(error, stage, end).RuntimeFailure? <==> !requested && running)
            && (ControllerReason(error, stage, end).StartupFailure? <==> !requested && !running)
  {
  }

  /** A missing capability is reported as such; any other failure at the stage the controller had reached, and the
      later it comes the later the stage. */
  lemma ControllerStageMeans(error: ErrorCode, stage: RunStage)
    ensures var reported, missing := ControllerStage(error, stage), error.Unsupported? || error.HardwareUnavailable?;
            && (reported.Capability? <==> missing)
            && (reported.Stop? <==> !missing && stage.StopSeen?)
            && (reported.SessionCreation? <==> !missing && stage.PolicyValidation?)
            && (reported.Preflight? <==> !missing && stage.Preflighting?)
            && (reported.GraphBuild? <==> !missing && stage.ExecutableGraphBuild?)
            && (reported.RuntimeStart? <==>
                  !missing && Progress(PreparedNotification) <= Progress(stage) <= Progress(RuntimeStarting))
            && (reported.RuntimeExecution? <==> !missing && Progress(RuntimeProgress) <= Progress(stage))
  {
  }

  /** Where a callback that raises, or an exception outside of the run, is placed: by the phase the session was
      in, at startup until it executes and at run time from then on. */
  lemma PhaseFailureMeans(error: ErrorCode, phase: Phase)
    ensures var f := PhaseFailure(error, phase);
            && f.error == error
            && (f.reason == if phase.Creating? || phase.InPreflight? || phase.StartingRuntime? then StartupFailure
                            else RuntimeFailure)
            && (f.stage.SessionCreation? <==> phase.Creating?) && (f.stage.Preflight? <==> phase.InPreflight?)
            && (f.stage.RuntimeStart? <==> phase.StartingRuntime?) && (f.stage.Stop? <==> phase.Ending?)
            && (f.stage.RuntimeExecution? <==> phase.Executing? || phase.Terminal?)
  {
  }

  // ---- Whole courses ----

  // The failure that stands after a run: of the first rejected report, of the outcome, of its report, or that a
  // success has no good reason.
  function RunFails(outcome: Outcome): Option<SessionFailure> {
    if outcome.failure.Some? then Some(ControllerFailure(outcome.failure.value, outcome.stage, outcome.end))
    else if outcome.problem.Some? then Some(SessionFailure(outcome.problem.value, RuntimeExecution, RuntimeFailure))
    else if outcome.end.CallerStop? || outcome.end.SourceEnded? || outcome.end.MaximumDuration? then None
    else Some(SessionFailure(InternalError, RuntimeExecution, RuntimeFailure))
  }

  lemma OutcomeFails(before: seq<Moment>, outcome: Outcome)
    ensures FirstWrong(OutcomeMoments(before, outcome)) ==
            if FirstWrong(before).Some? then FirstWrong(before) else RunFails(outcome)
  {
    hide FirstFailure, Events;
    var one := before + IfWrong(OutcomeFailure(outcome));
    var told := one + IfWrong(ReportFailure(outcome.problem));
    WrongAppends(before, OutcomeFailure(outcome));
    WrongAppends(one, ReportFailure(outcome.problem));
    if FirstWrong(told).Some? {
      assert told + [] == told;
    } else if SuccessReason(outcome.end).None? {
      WrongAppends(told, Some(NO_REASON));
    } else {
      ToldIsNotWrong(told, StateChanged(Stopping), Ending);
    }
  }

  /** The failure of a run with a callback that does not raise: the first rejected report, then the outcome. */
  lemma RunFailsFor(notices: seq<Notice>, outcome: Outcome)
    ensures AllGood(notices) ==> FirstWrong(Body(Ran(notices, outcome))) == RunFails(outcome)
    ensures forall i: nat :: FirstBad(notices, i) ==>
              FirstWrong(Body(Ran(notices, outcome))) == Some(Complaint(notices[i]))
  {
    hide FirstFailure, Events, Watch, OutcomeMoments;
    FirstBadNoticeFails(notices);
    OutcomeFails(Watch(notices).moments, outcome);
  }

  /** The failure of a run that was broken off by an exception: the first rejected report, or else the failure the
      controller had signalled, or else the exception itself. */
  lemma ExceptionFailsFor(notices: seq<Notice>, e: Exception)
    ensures AllGood(notices) ==>
              FirstWrong(Body(RaisedInRun(notices, e))) ==
              Some(if e.signal.Some?
                   then ControllerFailure(e.signal.value.error, e.signal.value.stage, e.signal.value.end)
                   else ControllerFailure(e.error, e.stage, RunFailure))
    ensures forall i: nat :: FirstBad(notices, i) ==>
              FirstWrong(Body(RaisedInRun(notices, e))) == Some(Complaint(notices[i]))
  {
    hide FirstFailure, Events, Watch;
    FirstBadNoticeFails(notices);
    WrongAppends(Watch(notices).moments, Some(ExceptionFailure(e, true, Watch(notices).phase)));
  }

  /** How a session ends if its callback does not raise: without a failure exactly if no report was rejected, the
      outcome and its report are good and the run was stopped, came to its end or to its time; the reason is then
      the stop or the source's completion. */
  lemma RunEndsFor(notices: seq<Notice>, outcome: Outcome)
    ensures var failure := FirstWrong(Body(Ran(notices, outcome)));
            var reason := FinalReason(Ran(notices, outcome), failure);
            && (failure.None? <==>
                  && AllGood(notices) && outcome.failure.None? && outcome.problem.None?
                  && (outcome.end.CallerStop? || outcome.end.SourceEnded? || outcome.end.MaximumDuration?))
            && (failure.None? ==> reason == if outcome.end.CallerStop? then RequestedStop else SourceCompleted)
            && (AllGood(notices) && outcome.failure.Some? && outcome.end.CallerStop? ==> reason.RequestedStop?)
            && (AllGood(notices) && outcome.failure == Some(Cancelled) ==> reason.RequestedStop?)
            && (reason.SourceCompleted? ==> failure.None?)
  {
    RunFailsFor(notices, outcome);
    hide FirstFailure, Events, Watch, Body;
    if !AllGood(notices) {
      var i: nat :| 0 <= i < |notices| && !Good(notices[i]);
      var first := SomeIsFirst(notices, i);
      assert FirstBad(notices, first);
    }
  }

  lemma {:induction false} SomeIsFirst(notices: seq<Notice>, i: nat) returns (first: nat)
    requires i < |notices| && !Good(notices[i])
    ensures FirstBad(notices, first)
    decreases i
  {
    if j: nat :| j < i && !Good(notices[j]) {
      first := SomeIsFirst(notices, j);
    } else {
      first := i;
    }
  }
}
