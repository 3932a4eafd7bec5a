/**
 The event thread of a Beta session as an object. Each method is proved to follow the story of the
 course: what the callback has been told, and which failure is recorded.
 */
module BetaSession {
  import opened Wrappers
  import opened SessionStory
  import StartPublication
  import OutputTypes

  class Session {
    // `throws(k)`: the callback raises when it is given the event number k; `original`: there is one.
    const throws: nat -> bool
    const original: bool
    var callback: bool
    var firstFailure: Option<SessionFailure>
    var emergencyFailure: Option<SessionFailure>
    var terminalStateEmitted: bool
    var runningStateEmitted: bool
    var stopRequested: bool
    var controllerActive: bool
    var phase: Phase
    var state: State
    var completionReason: Reason
    // The events the callback has been given.
    var delivered: seq<Event>

    constructor (callback: bool, throws: nat -> bool)
      ensures Fresh() && original == callback && this.throws == throws && state.Starting?
    {
      this.throws, this.callback, original := throws, callback, callback;
      firstFailure, emergencyFailure := None, None;
      terminalStateEmitted, runningStateEmitted, stopRequested, controllerActive := false, false, false, false;
      phase, state, completionReason, delivered := Creating, Starting, NoReason, [];
    }

    ghost predicate Fresh()
      reads this
    {
      && delivered == [] && firstFailure.None? && emergencyFailure.None? && callback == original
      && !terminalStateEmitted && !runningStateEmitted && !controllerActive && phase.Creating?
      && completionReason.NoReason?
    }

    // The failure that counts.
    function Recorded(): Option<SessionFailure>
      reads this
    {
      if firstFailure.Some? then firstFailure else emergencyFailure
    }

    // At most one of the two records is set.
    ghost predicate OneRecord()
      reads this
    {
      !(firstFailure.Some? && emergencyFailure.Some?)
    }

    // The callback has been given the story up to the event at which it raised, and was dropped then.
    ghost predicate Heard(story: seq<Event>)
      reads this
    {
      && CutShort(delivered, if original then story else [], throws)
      && callback == (original && !Raised(delivered, throws))
    }

    // The session is where the moments have led: the first failure among them is the recorded one.
    ghost predicate Follows(moments: seq<Moment>)
      reads this
    {
      && OneRecord() && !terminalStateEmitted
      && Recorded() == FirstFailure(moments, original, throws)
      && Heard(Events(moments))
    }

    // While the controller runs; whatever went wrong has asked it to stop.
    ghost predicate Watching(w: Watched)
      reads this
    {
      && Follows(w.moments) && phase == w.phase
      && (runningStateEmitted == w.running || Raised(delivered, throws))
      && (Recorded().Some? ==> stopRequested)
    }

    /** How every owned session ends: the recorded failure is the first of the course, callback raises
        included; Failed with its reason if there is one, Completed with the reason of the outcome
        otherwise; and what was delivered is the story of the course up to the first raise. */
    ghost predicate Ended(course: Course)
      reads this
    {
      && OneRecord() && terminalStateEmitted
      && Recorded() == FirstFailure(Body(course), original, throws)
      && state == (if Recorded().Some? then Failed else Completed)
      && completionReason == FinalReason(course, Recorded()) && !completionReason.NoReason?
      && Heard(Story(course))
    }

    // A failure, once recorded, never changes.
    twostate predicate FirstWins()
      reads this
    {
      old(Recorded()).Some? ==> firstFailure == old(firstFailure) && emergencyFailure == old(emergencyFailure)
    }

    // ---- Recording and telling ----

    method RecordFirstFailure(f: SessionFailure)
      requires OneRecord()
      modifies this`firstFailure
      ensures OneRecord() && FirstWins()
      ensures Recorded() == if old(Recorded()).Some? then old(Recorded()) else Some(f)
    {
      if firstFailure.None? && emergencyFailure.None? { firstFailure := Some(f); }
    }

    method RecordEmergencyFailure(f: SessionFailure)
      requires OneRecord()
      modifies this`emergencyFailure
      ensures OneRecord() && FirstWins()
      ensures Recorded() == if old(Recorded()).Some? || terminalStateEmitted then old(Recorded()) else Some(f)
    {
      if firstFailure.Some? || emergencyFailure.Some? || terminalStateEmitted { return; }
      emergencyFailure := Some(f);
    }

    // A callback that raises is dropped, and its exception becomes a failure unless the session is over.
    method InvokeCallback(e: Event)
      requires OneRecord()
      modifies this`callback, this`emergencyFailure, this`stopRequested, this`delivered
      ensures OneRecord() && FirstWins()
      ensures delivered == if old(callback) then old(delivered) + [e] else old(delivered)
      ensures callback == (old(callback) && !throws(old(|delivered|)))
      ensures var raised := old(callback) && throws(old(|delivered|));
              && stopRequested == (old(stopRequested) || raised)
              && Recorded() == if old(Recorded()).Some? || terminalStateEmitted || !raised then old(Recorded())
                               else Some(PhaseFailure(InternalError, phase))
    {
      if !callback { return; }
      delivered := delivered + [e];
      if throws(|delivered| - 1) {
        callback := false;
        RecordEmergencyFailure(PhaseFailure(InternalError, phase));
        stopRequested := true;
      }
    }

    // Telling an event before the end is a moment.
    method Tell(e: Event, ghost moments: seq<Moment>)
      requires Follows(moments)
      modifies this`callback, this`emergencyFailure, this`stopRequested, this`delivered
      ensures Follows(moments + [Told(e, phase)]) && FirstWins()
      ensures old(Recorded().Some? ==> stopRequested) ==> Recorded().Some? ==> stopRequested
      ensures old(Raised(delivered, throws)) ==> Raised(delivered, throws)
      ensures delivered == if old(callback) then old(delivered) + [e] else old(delivered)
    {
      hide FirstFailure, Events;
      MomentAppends(moments, Told(e, phase), original, throws);
      CutGrows(delivered, if original then Events(moments) else [], e, throws);
      if Raised(delivered, throws) && original {
        RaisingIsTrouble(moments, throws, |delivered| - 1);
      }
      InvokeCallback(e);
    }

    // So is finding something wrong.
    method Blame(f: SessionFailure, ghost moments: seq<Moment>)
      requires Follows(moments)
      modifies this`firstFailure
      ensures Follows(moments + [Wrong(f)]) && FirstWins()
      ensures Recorded() == if old(Recorded()).Some? then old(Recorded()) else Some(f)
    {
      hide FirstFailure, Events;
      MomentAppends(moments, Wrong(f), original, throws);
      RecordFirstFailure(f);
    }

    // After a raise nothing more is heard, and nothing more is recorded.
    lemma StaysDropped(moments: seq<Moment>, m: Moment)
      requires Follows(moments) && Recorded().Some? && (m.Wrong? || Raised(delivered, throws) || !original)
      ensures Follows(moments + [m])
    {
      hide FirstFailure, Events;
      MomentAppends(moments, m, original, throws);
      if m.Told? { CutGrows(delivered, if original then Events(moments) else [], m.event, throws); }
    }

    lemma RecordedMeans(moments: seq<Moment>)
      requires Follows(moments)
      ensures !Raised(delivered, throws) ==> Recorded() == FirstWrong(moments)
      ensures Recorded().None? ==> FirstWrong(moments).None? && !Raised(delivered, throws)
    {
      FailureIsWrongOrRaised(moments, delivered, original, throws);
      if Recorded().None? { NoFailureMeansNothingWrong(moments, original, throws); }
    }

    // ---- What the controller reports ----

    method HandleOutputChanged(id: nat, output: OutputTypes.OutputState, ghost w: Watched)
      requires Watching(w)
      modifies this`callback, this`emergencyFailure, this`stopRequested, this`delivered
      ensures Watching(Seen(w, OutputReport(id, output))) && FirstWins()
    {
      hide FirstFailure, Events;
      var one := OutputChanged(id, output);
      Tell(one, w.moments);
      ghost var moments := w.moments + [Told(one, w.phase)];
      if output.Running? {
        Tell(OutputReady(id), moments);
        moments := moments + [Told(OutputReady(id), w.phase)];
      }
      assert Seen(w, OutputReport(id, output)).moments == moments;
    }

    /** A report the session rejects is recorded, unless a failure was before, and stops the run. */
    method HandlePrepared(mismatch: bool, problem: Option<ErrorCode>, ghost w: Watched)
      requires Watching(w)
      modifies this`phase, this`firstFailure, this`stopRequested
      ensures Watching(Seen(w, PreparedReport(mismatch, problem))) && FirstWins()
      ensures var f := PreparedFailure(mismatch, problem);
              && (f.Some? ==> stopRequested)
              && Recorded() == if old(Recorded()).Some? then old(Recorded()) else f
    {
      hide FirstFailure, Events;
      phase := StartingRuntime;
      assert w.moments + [] == w.moments;
      if mismatch {
        Blame(MISMATCH, w.moments);
        stopRequested := true;
        return;
      }
      if problem.Some? {
        Blame(SessionFailure(problem.value, Capability, StartupFailure), w.moments);
        stopRequested := true;
      }
    }

    /** The first good report of progress is told as RUNNING; a rejected one is recorded and stops the
        run, as does any report after a failure. */
    method HandleProgress(problem: Option<ErrorCode>, ghost w: Watched)
      requires Watching(w)
      modifies this
      ensures Watching(Seen(w, ProgressReport(problem))) && FirstWins() && controllerActive == old(controllerActive)
      ensures old(Recorded()).Some? || problem.Some? ==> stopRequested && delivered == old(delivered)
      ensures old(Recorded()).None? && problem.Some? ==> Recorded() == ReportFailure(problem)
      ensures old(Recorded()).None? && problem.None? && !old(runningStateEmitted) && old(callback) ==>
                delivered == old(delivered) + [StateChanged(Running)]
    {
      hide FirstFailure, Events;
      RecordedMeans(w.moments);
      assert w.moments + [] == w.moments;
      phase := Executing;
      if Recorded().Some? {
        stopRequested := true;
        if FirstWrong(w.moments).None? {
          StaysDropped(w.moments, if problem.Some? then Wrong(ReportFailure(problem).value)
                                  else Told(StateChanged(Running), Executing));
        }
        return;
      }
      if problem.Some? {
        Blame(ReportFailure(problem).value, w.moments);
        stopRequested := true;
        return;
      }
      if !runningStateEmitted {
        runningStateEmitted := true;
        state := Running;
        Tell(StateChanged(Running), w.moments);
      }
    }

    method Observe(notices: seq<Notice>)
      requires Watching(Watch([]))
      modifies this
      ensures Watching(Watch(notices)) && FirstWins() && controllerActive == old(controllerActive)
    {
      hide FirstFailure, Events, Seen;
      for i := 0 to |notices|
        invariant Watching(Watch(notices[..i])) && FirstWins() && controllerActive == old(controllerActive)
      {
        ghost var w := Watch(notices[..i]);
        assert notices[..i + 1][..i] == notices[..i];
        match notices[i]
        case PreparedReport(mismatch, problem) => HandlePrepared(mismatch, problem, w);
        case ProgressReport(problem) => HandleProgress(problem, w);
        case OutputReport(id, output) => HandleOutputChanged(id, output, w);
      }
      assert notices[..|notices|] == notices;
    }

    // ---- The end ----

    // The events after the terminal state is set, when nothing can be recorded any more.
    method DeliverLast(events: seq<Event>, ghost story: seq<Event>)
      requires OneRecord() && terminalStateEmitted && Heard(story)
      modifies this`callback, this`emergencyFailure, this`stopRequested, this`delivered
      ensures OneRecord() && Recorded() == old(Recorded()) && FirstWins() && Heard(story + events)
    {
      assert story + events[..0] == story;
      for i := 0 to |events|
        invariant OneRecord() && Recorded() == old(Recorded()) && FirstWins() && Heard(story + events[..i])
      {
        assert story + events[..i + 1] == story + events[..i] + [events[i]];
        CutGrows(delivered, if original then story + events[..i] else [], events[i], throws);
        InvokeCallback(events[i]);
      }
      assert events[..|events|] == events;
    }

    /** The recorded failure is the one reported, with its reason. */
    method FinishFailure(ghost course: Course)
      requires Follows(Body(course)) && Recorded().Some?
      modifies this
      ensures Ended(course) && FirstWins() && Recorded() == old(Recorded()) && state.Failed?
    {
      hide FirstFailure, Events, Body;
      var f := Recorded().value;
      BodyIsReasoned(course);
      FailureHasReason(Body(course), original, throws);
      RecordedMeans(Body(course));
      completionReason, state := f.reason, Failed;
      phase, terminalStateEmitted := Terminal, true;
      DeliverLast(LastEvents(Some(f), f.reason), Events(Body(course)));
    }

    /** STOPPING is told first; if the callback raises at it the session fails after all, otherwise it
        completes with the given reason. */
    method FinishSuccess(reason: Reason, ghost moments: seq<Moment>, ghost course: Course)
      requires Follows(moments) && Recorded().None? && Completion(course) == reason && !reason.NoReason?
      requires Body(course) == moments + [Told(StateChanged(Stopping), Ending)]
      modifies this
      ensures Ended(course) && FirstWins()
      ensures Recorded() == if old(callback) && throws(old(|delivered|)) then
              Some(PhaseFailure(InternalError, Ending)) else None
      ensures Recorded().None? ==> state.Completed? && completionReason == reason
    {
      hide FirstFailure, Events, Body;
      phase, state := Ending, Stopping;
      MomentAppends(moments, Told(StateChanged(Stopping), Ending), original, throws);
      RecordedMeans(moments);
      FailureIsWrongOrRaised(moments, delivered, original, throws);
      Tell(StateChanged(Stopping), moments);
      if Recorded().Some? {
        FinishFailure(course);
        return;
      }
      RecordedMeans(Body(course));
      completionReason, state, terminalStateEmitted := reason, Completed, true;
      DeliverLast(LastEvents(None, reason), Events(Body(course)));
      phase := Terminal;
    }

    // What is wrong with the outcome is recorded.
    method BlameOutcome(outcome: Outcome, ghost moments: seq<Moment>)
      requires Follows(moments)
      modifies this`firstFailure
      ensures Follows(moments + IfWrong(OutcomeFailure(outcome)) + IfWrong(ReportFailure(outcome.problem)))
              && FirstWins()
      ensures Recorded() == if old(Recorded()).Some? then old(Recorded())
                            else if outcome.failure.Some? then OutcomeFailure(outcome)
                                 else ReportFailure(outcome.problem)
    {
      hide FirstFailure, Events;
      assert moments + [] == moments;
      if outcome.failure.Some? { Blame(OutcomeFailure(outcome).value, moments); }
      ghost var told := moments + IfWrong(OutcomeFailure(outcome));
      assert told + [] == told;
      if outcome.problem.Some? { Blame(ReportFailure(outcome.problem).value, told); }
    }

    /** The first failure stands; otherwise the outcome's failure, or what is wrong with its report, or
        with its reason; and if there is nothing, the session stops and completes with its reason. */
    method HandleOutcome(outcome: Outcome, ghost notices: seq<Notice>)
      requires Watching(Watch(notices))
      modifies this
      ensures Ended(Ran(notices, outcome)) && FirstWins()
      ensures old(Recorded()).None? && outcome.failure.Some? ==> Recorded() == OutcomeFailure(outcome)
      ensures old(Recorded()).None? && outcome.failure.None? && outcome.problem.Some? ==>
              Recorded() == ReportFailure(outcome.problem)
      ensures state.Completed? ==>
                && old(Recorded()).None? && outcome.failure.None? && outcome.problem.None?
                && Some(completionReason) == SuccessReason(outcome.end)
    {
      hide FirstFailure, Events, Watch;
      ghost var moments := Watch(notices).moments;
      ghost var course := Ran(notices, outcome);
      ghost var told := moments + IfWrong(OutcomeFailure(outcome)) + IfWrong(ReportFailure(outcome.problem));
      BlameOutcome(outcome, moments);
      RecordedMeans(told);
      if Recorded().Some? {
        OutcomeFollows(told, outcome);
        FinishFailure(course);
        return;
      }
      var reason := SuccessReason(outcome.end);
      if reason.None? {
        Blame(NO_REASON, told);
        FinishFailure(course);
        return;
      }
      FinishSuccess(reason.value, told, course);
    }

    // Once a failure is recorded, the rest of the outcome changes nothing.
    lemma OutcomeFollows(told: seq<Moment>, outcome: Outcome)
      requires Follows(told) && Recorded().Some?
      ensures Follows(told + if FirstWrong(told).Some? then [] else StopMoments(outcome.end))
    {
      hide FirstFailure, Events;
      RecordedMeans(told);
      if FirstWrong(told).Some? {
        assert told + [] == told;
      } else {
        StaysDropped(told, StopMoments(outcome.end)[0]);
      }
    }

    /** An exception that reaches the event thread: with nothing recorded before, the controller's own
        first failure is preferred to the exception itself. */
    method HandleException(e: Exception, ghost moments: seq<Moment>, ghost course: Course)
      requires Follows(moments) && Body(course) == moments + [Wrong(ExceptionFailure(e, controllerActive, phase))]
      modifies this
      ensures Ended(course) && FirstWins() && state.Failed?
      ensures Recorded() == if old(Recorded()).Some? then old(Recorded())
                            else Some(ExceptionFailure(e, old(controllerActive), old(phase)))
    {
      hide FirstFailure, Events, Body;
      MomentAppends(moments, Wrong(ExceptionFailure(e, controllerActive, phase)), original, throws);
      if e.signal.Some? {
        RecordEmergencyFailure(ControllerFailure(e.signal.value.error, e.signal.value.stage, e.signal.value.end));
      } else if controllerActive {
        RecordEmergencyFailure(ControllerFailure(e.error, e.stage, RunFailure));
      } else {
        RecordEmergencyFailure(PhaseFailure(e.error, phase));
      }
      FinishFailure(course);
    }

    // ---- The event thread ----

    method Begin()
      requires Fresh()
      modifies this
      ensures Watching(OPENING) && !controllerActive
    {
      state := Starting;
      assert Follows([]);
      hide FirstFailure, Events, CutShort;
      assert [] + [Told(StateChanged(Starting), Creating)] == OPENING.moments;
      Tell(StateChanged(Starting), []);
    }

    method RunController(notices: seq<Notice>)
      requires Watching(OPENING)
      modifies this
      ensures Watching(Watch(notices)) && controllerActive
    {
      phase, controllerActive := InPreflight, true;
      Observe(notices);
    }

    /** The event thread. Without ownership it does nothing at all. With it, whatever the controller
        reports, wherever an exception is raised and whichever event the callback raises at, the session
        ends as Ended says: what it was told is a prefix of a script, the whole story of the course if
        the callback never raises, and no output event follows the end. */
    method EventThread(owned: bool, course: Course)
      requires Fresh()
      modifies this
      ensures !owned ==> delivered == [] && state == old(state) && completionReason.NoReason? && Recorded().None?
      ensures owned ==> Ended(course) && NoOutputAfterEnd(delivered)
      ensures var failure := FirstWrong(Body(course));
              var script := Script(Reaches(course), failure, FinalReason(course, failure));
              && (owned ==> SessionEvents(delivered) <= script)
              && (owned && original && (forall k :: !throws(k)) ==>
                    delivered == Story(course) && SessionEvents(delivered) == script && Recorded() == failure)
    {
      if !owned { return; }
      Perform(course);
      StoryIsAScript(course);
      if original {
        HeardIsAPrefix(course, delivered, throws);
        if forall k :: !throws(k) { QuietMeansWrong(Body(course), true, throws); }
      }
    }

    method Perform(course: Course)
      requires Fresh()
      modifies this
      ensures Ended(course)
    {
      hide FirstFailure, Events, Watch;
      Begin();
      match course
      case NoDescription(error) =>
        Blame(SessionFailure(error, SessionCreation, StartupFailure), OPENING.moments);
        FinishFailure(course);
      case NoPolicy(error) =>
        Blame(SessionFailure(error, SessionCreation, StartupFailure), OPENING.moments);
        FinishFailure(course);
      case RaisedEarly(exception) => HandleException(exception, OPENING.moments, course);
      case Ran(notices, outcome) =>
        RunController(notices);
        controllerActive := false;
        HandleOutcome(outcome, notices);
      case RaisedInRun(notices, exception) =>
        RunController(notices);
        HandleException(exception, Watch(notices).moments, course);
      case RaisedAfterRun(notices, outcome, recorded, exception) =>
        RunController(notices);
        controllerActive := false;
        ghost var moments := Watch(notices).moments;
        assert moments + [] == moments;
        if recorded && outcome.failure.Some? { Blame(OutcomeFailure(outcome).value, moments); }
        HandleException(exception, moments + (if recorded then IfWrong(OutcomeFailure(outcome)) else []), course);
    }

    /** The event thread from its start: it waits at the gate while the other threads decide, and
        delivers nothing unless their first decision was to publish its ownership. */
    method EventThreadMain(publication: StartPublication.Publication, others: seq<StartPublication.Step>,
                           course: Course)
      requires Fresh()
      requires publication.gate.Pending? ==> !StartPublication.FirstDecision(others).Pending?
      modifies this, publication
      ensures publication.gate ==
              if old(publication.gate).Pending? then StartPublication.FirstDecision(others) else old(publication.gate)
      ensures if publication.gate.Published? then Ended(course) else delivered == []
    {
      var owned := publication.WaitForOwnership(others);
      EventThread(owned, course);
    }
  }
}
