/**
 What a Beta session tells its callback, as a function of what happens to it. The course of a run is
 what the run controller reports and where an exception is raised; its body is the list of moments, in
 order, at which an event is told or something is wrong.
 */
module SessionStory {
  import opened Wrappers
  import OutputTypes

  datatype State = Starting | Running | Stopping | Completed | Failed

  datatype Reason = NoReason | SourceCompleted | RequestedStop | StartupFailure | RuntimeFailure

  datatype FailureStage = SessionCreation | Preflight | Capability | GraphBuild | RuntimeStart | RuntimeExecution | Stop

  datatype SessionFailure = SessionFailure(error: ErrorCode, stage: FailureStage, reason: Reason)

  datatype ErrorCode =
    | Cancelled | Unsupported | HardwareUnavailable | AllocationFailed | InternalError | Other(code: nat)

  datatype RunStage =
    | PolicyValidation | StopSeen | Preflighting | ExecutableGraphBuild | PreparedNotification | RuntimeCompile
    | RuntimeNodeRegistration | RuntimeStarting | RuntimeProgress | RuntimeCompletion | RunCompleted

  datatype EndReason =
    | NotStarted | CallerStop | SourceEnded | MaximumDuration | FirstOutputTimeout | ProgressTimeout
    | WorkerFailure | RuntimeStopped | RunFailure

  datatype Event =
    | StateChanged(state: State)
    | ErrorReported(failure: SessionFailure)
    | CompletedWith(reason: Reason)
    | OutputChanged(id: nat, output: OutputTypes.OutputState)
    | OutputReady(id: nat)

  // ---- Classification ----

  function ControllerStage(error: ErrorCode, stage: RunStage): FailureStage {
    if error.Unsupported? || error.HardwareUnavailable? then Capability
    else match stage
      case PolicyValidation => SessionCreation
      case StopSeen => Stop
      case Preflighting => Preflight
      case ExecutableGraphBuild => GraphBuild
      case PreparedNotification => RuntimeStart
      case RuntimeCompile => RuntimeStart
      case RuntimeNodeRegistration => RuntimeStart
      case RuntimeStarting => RuntimeStart
      case _ => RuntimeExecution
  }

  function ControllerReason(error: ErrorCode, stage: RunStage, end: EndReason): Reason {
    if error.Cancelled? || end.CallerStop? then RequestedStop
    else if stage.RuntimeProgress? || stage.RuntimeCompletion? || stage.RunCompleted? then RuntimeFailure
    else StartupFailure
  }

  function ControllerFailure(error: ErrorCode, stage: RunStage, end: EndReason): SessionFailure {
    SessionFailure(error, ControllerStage(error, stage), ControllerReason(error, stage, end))
  }

  function SuccessReason(end: EndReason): Option<Reason> {
    match end
    case CallerStop => Some(RequestedStop)
    case SourceEnded => Some(SourceCompleted)
    case MaximumDuration => Some(SourceCompleted)
    case _ => None
  }

  datatype Phase = Creating | InPreflight | StartingRuntime | Executing | Ending | Terminal

  function PhaseFailure(error: ErrorCode, phase: Phase): SessionFailure {
    match phase
    case Creating => SessionFailure(error, SessionCreation, StartupFailure)
    case InPreflight => SessionFailure(error, Preflight, StartupFailure)
    case StartingRuntime => SessionFailure(error, RuntimeStart, StartupFailure)
    case Executing => SessionFailure(error, RuntimeExecution, RuntimeFailure)
    case Ending => SessionFailure(error, Stop, RuntimeFailure)
    case Terminal => SessionFailure(error, RuntimeExecution, RuntimeFailure)
  }

  // ---- The promised order of events ----

  predicate IsOutput(e: Event) {
    e.OutputChanged? || e.OutputReady?
  }

  // The session is over, or about to be, when one of these is delivered.
  predicate Ends(e: Event) {
    e.ErrorReported? || e.CompletedWith? || (e.StateChanged? && !e.state.Starting? && !e.state.Running?)
  }

  function SessionEvents(trace: seq<Event>): seq<Event> {
    if trace == [] then []
    else SessionEvents(trace[..|trace| - 1]) + if IsOutput(trace[|trace| - 1]) then [] else [trace[|trace| - 1]]
  }

  function Opening(running: bool): seq<Event> {
    [StateChanged(Starting)] + if running then [StateChanged(Running)] else []
  }

  // The session events of a whole run: it may reach Running, and it ends with a failure or without.
  function Script(running: bool, failure: Option<SessionFailure>, reason: Reason): seq<Event> {
    Opening(running)
    + if failure.Some? then [ErrorReported(failure.value), StateChanged(Failed), CompletedWith(reason)]
      else [StateChanged(Stopping), StateChanged(Completed), CompletedWith(reason)]
  }

  ghost predicate NoneEnds(trace: seq<Event>) {
    forall i :: 0 <= i < |trace| ==> !Ends(trace[i])
  }

  ghost predicate NoOutputAfterEnd(trace: seq<Event>) {
    forall i, j :: 0 <= i < j < |trace| && Ends(trace[i]) ==> !IsOutput(trace[j])
  }

  lemma EventAppends(trace: seq<Event>, e: Event)
    ensures SessionEvents(trace + [e]) == SessionEvents(trace) + if IsOutput(e) then [] else [e]
  {
    assert (trace + [e])[..|trace|] == trace;
  }

  // Session events at the end of a trace are session events of the trace, and no output event
  // follows the end.
  lemma {:induction false} TailAppends(trace: seq<Event>, tail: seq<Event>)
    requires forall i :: 0 <= i < |tail| ==> !IsOutput(tail[i])
    ensures SessionEvents(trace + tail) == SessionEvents(trace) + tail
    ensures NoOutputAfterEnd(trace) ==> NoOutputAfterEnd(trace + tail)
    decreases |tail|
  {
    if tail == [] {
      assert trace + tail == trace;
    } else {
      var front, last := tail[..|tail| - 1], tail[|tail| - 1];
      TailAppends(trace, front);
      EventAppends(trace + front, last);
      assert trace + tail == trace + front + [last] && front + [last] == tail;
    }
  }

  lemma NoneEndsIsQuiet(trace: seq<Event>)
    requires NoneEnds(trace)
    ensures NoOutputAfterEnd(trace)
  {
  }

  lemma {:induction false} PrefixEvents(part: seq<Event>, whole: seq<Event>)
    requires part <= whole
    ensures SessionEvents(part) <= SessionEvents(whole)
    decreases |whole|
  {
    hide SessionEvents;
    if part != whole {
      var front := whole[..|whole| - 1];
      assert part <= front;
      PrefixEvents(part, front);
      EventAppends(front, whole[|whole| - 1]);
      assert front + [whole[|whole| - 1]] == whole;
    }
  }

  // ---- What the run controller reports ----

  // `problem` is what the session itself finds wrong with a report; `mismatch` is a description that is
  // not the session's own.
  datatype Notice =
    | PreparedReport(mismatch: bool, problem: Option<ErrorCode>)
    | ProgressReport(problem: Option<ErrorCode>)
    | OutputReport(id: nat, output: OutputTypes.OutputState)

  datatype Outcome = Outcome(failure: Option<ErrorCode>, stage: RunStage, end: EndReason, problem: Option<ErrorCode>)

  // The controller's own first failure, if it noted one, and the stage it was in.
  datatype Signal = Signal(error: ErrorCode, stage: RunStage, end: EndReason)

  datatype Exception = Exception(error: ErrorCode, signal: Option<Signal>, stage: RunStage)

  // RaisedAfterRun: while the outcome was handled; `recorded` if its failure was recorded before that.
  datatype Course =
    | NoDescription(error: ErrorCode)
    | NoPolicy(error: ErrorCode)
    | RaisedEarly(exception: Exception)
    | Ran(notices: seq<Notice>, outcome: Outcome)
    | RaisedInRun(notices: seq<Notice>, exception: Exception)
    | RaisedAfterRun(notices: seq<Notice>, outcome: Outcome, recorded: bool, exception: Exception)

  // ---- Moments ----

  datatype Moment = Told(event: Event, phase: Phase) | Wrong(failure: SessionFailure)

  function Events(moments: seq<Moment>): seq<Event> {
    if moments == [] then []
    else
      var last := moments[|moments| - 1];
      Events(moments[..|moments| - 1]) + if last.Told? then [last.event] else []
  }

  // A callback that raises makes the moment wrong at which it was told.
  function Trouble(moment: Moment, raised: bool): Option<SessionFailure> {
    match moment
    case Wrong(f) => Some(f)
    case Told(_, phase) => if raised then Some(PhaseFailure(InternalError, phase)) else None
  }

  // The first thing that went wrong, when the callback raises at the events numbered by `throws`.
  function FirstFailure(moments: seq<Moment>, callback: bool, throws: nat -> bool): Option<SessionFailure> {
    if moments == [] then None
    else
      var front := moments[..|moments| - 1];
      var earlier := FirstFailure(front, callback, throws);
      if earlier.Some? then earlier
      else Trouble(moments[|moments| - 1], callback && throws(|Events(front)|))
  }

  function FirstWrong(moments: seq<Moment>): Option<SessionFailure> {
    FirstFailure(moments, false, (k: nat) => false)
  }

  lemma MomentAppends(moments: seq<Moment>, m: Moment, callback: bool, throws: nat -> bool)
    ensures Events(moments + [m]) == Events(moments) + if m.Told? then [m.event] else []
    ensures var earlier := FirstFailure(moments, callback, throws);
            FirstFailure(moments + [m], callback, throws) ==
            if earlier.Some? then earlier else Trouble(m, callback && throws(|Events(moments)|))
  {
    assert (moments + [m])[..|moments|] == moments;
  }

  // Moment i is in trouble, and none before it is.
  ghost predicate FirstTrouble(moments: seq<Moment>, i: nat, f: SessionFailure, callback: bool, throws: nat -> bool) {
    && i < |moments|
    && Trouble(moments[i], callback && throws(|Events(moments[..i])|)) == Some(f)
    && forall j :: 0 <= j < i ==> Trouble(moments[j], callback && throws(|Events(moments[..j])|)).None?
  }

  lemma {:induction false} NoTroubleMeans(moments: seq<Moment>, callback: bool, throws: nat -> bool)
    ensures FirstFailure(moments, callback, throws).None? <==>
            forall j :: 0 <= j < |moments| ==> Trouble(moments[j], callback && throws(|Events(moments[..j])|)).None?
    decreases |moments|
  {
    if moments != [] {
      var front := moments[..|moments| - 1];
      NoTroubleMeans(front, callback, throws);
      assert forall j :: 0 <= j < |front| ==> front[j] == moments[j] && front[..j] == moments[..j];
    }
  }

  /** The recorded failure is the first in order: exactly the trouble of the first moment that has one. */
  lemma {:induction false} FirstFailureMeans(moments: seq<Moment>, f: SessionFailure, callback: bool,
                                             throws: nat -> bool)
    ensures FirstFailure(moments, callback, throws) == Some(f) <==>
            exists i: nat :: FirstTrouble(moments, i, f, callback, throws)
    decreases |moments|
  {
    if moments != [] {
      var n := |moments| - 1;
      var front := moments[..n];
      FirstFailureMeans(front, f, callback, throws);
      NoTroubleMeans(front, callback, throws);
      assert forall j :: 0 <= j < n ==> front[j] == moments[j] && front[..j] == moments[..j];
      hide Events, Trouble;
      forall i: nat
        ensures FirstTrouble(front, i, f, callback, throws) <==>
                i < n && FirstTrouble(moments, i, f, callback, throws)
      {
      }
      if FirstFailure(moments, callback, throws) == Some(f) && FirstFailure(front, callback, throws).None? {
        assert FirstTrouble(moments, n, f, callback, throws);
      }
    }
  }

  // ---- The body of a course ----

  // What has been told and found wrong while the controller runs, with a callback that never raises.
  datatype Watched = Watched(moments: seq<Moment>, phase: Phase, running: bool)

  const OPENING: Watched := Watched([Told(StateChanged(Starting), Creating)], Creating, false)

  const MISMATCH: SessionFailure := SessionFailure(InternalError, RuntimeStart, StartupFailure)

  function PreparedFailure(mismatch: bool, problem: Option<ErrorCode>): Option<SessionFailure> {
    if mismatch then Some(MISMATCH)
    else if problem.Some? then Some(SessionFailure(problem.value, Capability, StartupFailure))
    else None
  }

  function ReportFailure(problem: Option<ErrorCode>): Option<SessionFailure> {
    if problem.Some? then Some(SessionFailure(problem.value, RuntimeExecution, RuntimeFailure)) else None
  }

  function IfWrong(f: Option<SessionFailure>): seq<Moment> {
    if f.Some? then [Wrong(f.value)] else []
  }

  // An output event, and a second one if the output runs. Running is told at the first good report of
  // progress, unless something was wrong before.
  function NoticeMoments(w: Watched, notice: Notice): seq<Moment> {
    match notice
    case PreparedReport(mismatch, problem) => IfWrong(PreparedFailure(mismatch, problem))
    case ProgressReport(problem) =>
      if FirstWrong(w.moments).Some? then []
      else if problem.Some? then IfWrong(ReportFailure(problem))
      else if w.running then [] else [Told(StateChanged(Running), Executing)]
    case OutputReport(id, output) =>
      [Told(OutputChanged(id, output), w.phase)] + if output.Running? then [Told(OutputReady(id), w.phase)] else []
  }

  function PhaseAfter(phase: Phase, notice: Notice): Phase {
    match notice
    case PreparedReport(_, _) => StartingRuntime
    case ProgressReport(_) => Executing
    case OutputReport(_, _) => phase
  }

  function Seen(w: Watched, notice: Notice): Watched {
    var more := NoticeMoments(w, notice);
    Watched(w.moments + more, PhaseAfter(w.phase, notice), w.running
        || (notice.ProgressReport? && more != [] && more[0].Told?))
  }

  function Watch(notices: seq<Notice>): Watched {
    if notices == [] then OPENING.(phase := InPreflight) else Seen(Watch(notices[..|notices| - 1]),
         notices[|notices| - 1])
  }

  function OutcomeFailure(outcome: Outcome): Option<SessionFailure> {
    if outcome.failure.Some? then Some(ControllerFailure(outcome.failure.value, outcome.stage, outcome.end)) else None
  }

  // The controller's own first failure is preferred; otherwise the exception is placed where it was raised.
  function ExceptionFailure(e: Exception, active: bool, phase: Phase): SessionFailure {
    if e.signal.Some? then ControllerFailure(e.signal.value.error, e.signal.value.stage, e.signal.value.end)
    else if active then ControllerFailure(e.error, e.stage, RunFailure)
    else PhaseFailure(e.error, phase)
  }

  const NO_REASON: SessionFailure := SessionFailure(InternalError, RuntimeExecution, RuntimeFailure)

  // Without anything wrong so far, the session stops, or finds that the outcome has no good reason.
  function StopMoments(end: EndReason): seq<Moment> {
    if SuccessReason(end).None? then [Wrong(NO_REASON)] else [Told(StateChanged(Stopping), Ending)]
  }

  function OutcomeMoments(before: seq<Moment>, outcome: Outcome): seq<Moment> {
    var told := before + IfWrong(OutcomeFailure(outcome)) + IfWrong(ReportFailure(outcome.problem));
    told + if FirstWrong(told).Some? then [] else StopMoments(outcome.end)
  }

  function Body(course: Course): seq<Moment> {
    match course
    case NoDescription(error) => OPENING.moments + [Wrong(SessionFailure(error, SessionCreation, StartupFailure))]
    case NoPolicy(error) => OPENING.moments + [Wrong(SessionFailure(error, SessionCreation, StartupFailure))]
    case RaisedEarly(e) => OPENING.moments + [Wrong(ExceptionFailure(e, false, Creating))]
    case Ran(notices, outcome) => OutcomeMoments(Watch(notices).moments, outcome)
    case RaisedInRun(notices, e) => Watch(notices).moments + [Wrong(ExceptionFailure(e, true, Watch(notices).phase))]
    case RaisedAfterRun(notices, outcome, recorded, e) =>
      Watch(notices).moments + (if recorded then IfWrong(OutcomeFailure(outcome)) else [])
      + [Wrong(ExceptionFailure(e, false, Watch(notices).phase))]
  }

  function Reaches(course: Course): bool {
    match course
    case Ran(notices, _) => Watch(notices).running
    case RaisedInRun(notices, _) => Watch(notices).running
    case RaisedAfterRun(notices, _, _, _) => Watch(notices).running
    case _ => false
  }

  // The reason of a session in which nothing went wrong.
  function Completion(course: Course): Reason {
    if course.Ran? && SuccessReason(course.outcome.end).Some? then SuccessReason(course.outcome.end).value else NoReason
  }

  function FinalReason(course: Course, failure: Option<SessionFailure>): Reason {
    if failure.Some? then failure.value.reason else Completion(course)
  }

  // The events after the terminal state is set.
  function LastEvents(failure: Option<SessionFailure>, reason: Reason): seq<Event> {
    if failure.Some? then [ErrorReported(failure.value), StateChanged(Failed), CompletedWith(reason)]
    else [StateChanged(Completed), CompletedWith(reason)]
  }

  // Everything a callback that never raises is told.
  function Story(course: Course): seq<Event> {
    var failure := FirstWrong(Body(course));
    Events(Body(course)) + LastEvents(failure, FinalReason(course, failure))
  }

  // ---- What the story looks like ----

  // Nothing told while the controller runs ends the session.
  ghost predicate Opens(w: Watched) {
    NoneEnds(Events(w.moments)) && SessionEvents(Events(w.moments)) == Opening(w.running) && Events(w.moments) != []
  }

  lemma ToldAppends(moments: seq<Moment>, event: Event, phase: Phase)
    ensures Events(moments + [Told(event, phase)]) == Events(moments) + [event]
    ensures SessionEvents(Events(moments + [Told(event, phase)])) ==
            SessionEvents(Events(moments)) + if IsOutput(event) then [] else [event]
    ensures NoneEnds(Events(moments)) && !Ends(event) ==> NoneEnds(Events(moments + [Told(event, phase)]))
  {
    MomentAppends(moments, Told(event, phase), false, (k: nat) => false);
    EventAppends(Events(moments), event);
  }

  lemma WrongAppends(moments: seq<Moment>, f: Option<SessionFailure>)
    ensures Events(moments + IfWrong(f)) == Events(moments)
    ensures FirstWrong(moments + IfWrong(f)) == if FirstWrong(moments).Some? then FirstWrong(moments) else f
  {
    if f.Some? {
      MomentAppends(moments, Wrong(f.value), false, (k: nat) => false);
    } else {
      assert moments + [] == moments;
    }
  }

  lemma SeenOpens(w: Watched, notice: Notice)
    requires Opens(w)
    ensures Opens(Seen(w, notice))
  {
    hide FirstFailure, Events, SessionEvents, NoneEnds;
    match notice
    case PreparedReport(mismatch, problem) => WrongAppends(w.moments, PreparedFailure(mismatch, problem));
    case ProgressReport(problem) =>
      WrongAppends(w.moments, ReportFailure(problem));
      ToldAppends(w.moments, StateChanged(Running), Executing);
      assert w.moments + [] == w.moments;
    case OutputReport(id, output) => OutputOpens(w, id, output);
  }

  lemma OutputOpens(w: Watched, id: nat, output: OutputTypes.OutputState)
    requires Opens(w)
    ensures Opens(Seen(w, OutputReport(id, output)))
  {
    hide FirstFailure, Events, SessionEvents, NoneEnds;
    var one := w.moments + [Told(OutputChanged(id, output), w.phase)];
    ToldAppends(w.moments, OutputChanged(id, output), w.phase);
    ToldAppends(one, OutputReady(id), w.phase);
    var all := if output.Running? then one + [Told(OutputReady(id), w.phase)] else one;
    assert Seen(w, OutputReport(id, output)).moments == all;
  }

  lemma OpeningOpens()
    ensures Opens(OPENING)
  {
    ToldAppends([], StateChanged(Starting), Creating);
    assert [] + [Told(StateChanged(Starting), Creating)] == OPENING.moments;
    assert Events([]) == [] && SessionEvents([]) == [];
    hide Events, SessionEvents, FirstFailure;
    assert NoneEnds([]);
  }

  lemma {:induction false} WatchOpens(notices: seq<Notice>)
    ensures Opens(Watch(notices))
    decreases |notices|
  {
    if notices == [] {
      OpeningOpens();
    } else {
      WatchOpens(notices[..|notices| - 1]);
      SeenOpens(Watch(notices[..|notices| - 1]), notices[|notices| - 1]);
    }
  }

  // The body: the opening, something wrong, or else Stopping at the end.
  ghost predicate Shaped(moments: seq<Moment>, running: bool) {
    var told := Events(moments);
    if FirstWrong(moments).Some? then NoneEnds(told) && SessionEvents(told) == Opening(running)
    else NoOutputAfterEnd(told) && SessionEvents(told) == Opening(running) + [StateChanged(Stopping)]
  }

  lemma WrongIsShaped(w: Watched, f: SessionFailure)
    requires Opens(w)
    ensures Shaped(w.moments + [Wrong(f)], w.running)
  {
    WrongAppends(w.moments, Some(f));
  }

  lemma StoppingIsShaped(w: Watched)
    requires Opens(w) && FirstWrong(w.moments).None?
    ensures Shaped(w.moments + [Told(StateChanged(Stopping), Ending)], w.running)
  {
    MomentAppends(w.moments, Told(StateChanged(Stopping), Ending), false, (k: nat) => false);
    TailAppends(Events(w.moments), [StateChanged(Stopping)]);
  }

  lemma OutcomeIsShaped(w: Watched, outcome: Outcome)
    requires Opens(w)
    ensures Shaped(OutcomeMoments(w.moments, outcome), w.running)
  {
    var one := w.moments + IfWrong(OutcomeFailure(outcome));
    var told := one + IfWrong(ReportFailure(outcome.problem));
    WrongAppends(w.moments, OutcomeFailure(outcome));
    WrongAppends(one, ReportFailure(outcome.problem));
    var v := w.(moments := told);
    if FirstWrong(told).Some? {
      assert told + [] == told;
    } else if SuccessReason(outcome.end).None? {
      WrongIsShaped(v, NO_REASON);
    } else {
      StoppingIsShaped(v);
    }
  }

  lemma BodyIsShaped(course: Course)
    ensures Shaped(Body(course), Reaches(course))
  {
    hide Watch, Events, FirstFailure, SessionEvents, Opens, Shaped, OutcomeMoments;
    OpeningOpens();
    match course
    case NoDescription(error) => WrongIsShaped(OPENING, SessionFailure(error, SessionCreation, StartupFailure));
    case NoPolicy(error) => WrongIsShaped(OPENING, SessionFailure(error, SessionCreation, StartupFailure));
    case RaisedEarly(e) => WrongIsShaped(OPENING, ExceptionFailure(e, false, Creating));
    case Ran(notices, outcome) =>
      WatchOpens(notices);
      OutcomeIsShaped(Watch(notices), outcome);
    case RaisedInRun(notices, e) =>
      WatchOpens(notices);
      WrongIsShaped(Watch(notices), ExceptionFailure(e, true, Watch(notices).phase));
    case RaisedAfterRun(notices, outcome, recorded, e) =>
      WatchOpens(notices);
      var w := Watch(notices);
      var first := if recorded then OutcomeFailure(outcome) else None;
      WrongOpens(w, first);
      WrongIsShaped(w.(moments := w.moments + IfWrong(first)), ExceptionFailure(e, false, w.phase));
  }

  lemma WrongOpens(w: Watched, f: Option<SessionFailure>)
    requires Opens(w)
    ensures Opens(w.(moments := w.moments + IfWrong(f)))
  {
    hide Events, FirstFailure;
    WrongAppends(w.moments, f);
  }

  /** The session events of every course are a script: STARTING, RUNNING if it was reached, and then
      ERROR, FAILED and the completion, or STOPPING, COMPLETED and the completion; no output event
      follows the end. */
  lemma StoryIsAScript(course: Course)
    ensures var failure := FirstWrong(Body(course));
            SessionEvents(Story(course)) == Script(Reaches(course), failure, FinalReason(course, failure))
    ensures NoOutputAfterEnd(Story(course))
  {
    hide Body, Events, FirstFailure, SessionEvents, NoneEnds, NoOutputAfterEnd, Opening;
    BodyIsShaped(course);
    var failure := FirstWrong(Body(course));
    var told := Events(Body(course));
    if failure.Some? { NoneEndsIsQuiet(told); }
    TailAppends(told, LastEvents(failure, FinalReason(course, failure)));
  }

  // ---- A callback that raises ----

  // d is what is heard of a story: all of it, or up to the event at which the callback raises.
  ghost predicate CutShort(d: seq<Event>, story: seq<Event>, throws: nat -> bool) {
    && d <= story && (forall k :: 0 <= k < |d| - 1 ==> !throws(k))
    && (d != story ==> Raised(d, throws))
  }

  // The last event raised.
  predicate Raised(d: seq<Event>, throws: nat -> bool) {
    d != [] && throws(|d| - 1)
  }

  /** However the callback behaves, the session events it is told are a prefix of the script, no output
      event follows the end, and it is told everything unless it raises. */
  lemma HeardIsAPrefix(course: Course, d: seq<Event>, throws: nat -> bool)
    requires CutShort(d, Story(course), throws)
    ensures var failure := FirstWrong(Body(course));
            SessionEvents(d) <= Script(Reaches(course), failure, FinalReason(course, failure))
    ensures NoOutputAfterEnd(d)
    ensures (forall k :: 0 <= k < |Story(course)| ==> !throws(k)) ==> d == Story(course)
  {
    StoryIsAScript(course);
    PrefixEvents(d, Story(course));
  }

  // A callback that raised has been dropped, and what it raised was recorded at the latest then.
  lemma {:induction false} RaisingIsTrouble(moments: seq<Moment>, throws: nat -> bool, k: nat)
    requires k < |Events(moments)| && throws(k)
    ensures FirstFailure(moments, true, throws).Some?
    decreases |moments|
  {
    var front, last := moments[..|moments| - 1], moments[|moments| - 1];
    if k < |Events(front)| { RaisingIsTrouble(front, throws, k); }
  }

  // Without a raise, only what is wrong counts.
  lemma {:induction false} QuietMeansWrong(moments: seq<Moment>, callback: bool, throws: nat -> bool)
    requires callback ==> forall k :: 0 <= k < |Events(moments)| ==> !throws(k)
    ensures FirstFailure(moments, callback, throws) == FirstWrong(moments)
    decreases |moments|
  {
    if moments != [] { QuietMeansWrong(moments[..|moments| - 1], callback, throws); }
  }

  lemma {:induction false} NoFailureMeansNothingWrong(moments: seq<Moment>, callback: bool, throws: nat -> bool)
    requires FirstFailure(moments, callback, throws).None?
    ensures FirstWrong(moments).None?
    decreases |moments|
  {
    if moments != [] { NoFailureMeansNothingWrong(moments[..|moments| - 1], callback, throws); }
  }

  // Where nothing was wrong but a failure is recorded, the callback raised.
  lemma FailureIsWrongOrRaised(moments: seq<Moment>, d: seq<Event>, callback: bool, throws: nat -> bool)
    requires CutShort(d, if callback then Events(moments) else [], throws)
    ensures !Raised(d, throws) ==> FirstFailure(moments, callback, throws) == FirstWrong(moments)
    ensures callback && Raised(d, throws) ==> FirstFailure(moments, callback, throws).Some?
  {
    if !Raised(d, throws) { QuietMeansWrong(moments, callback, throws); }
    if callback && Raised(d, throws) { RaisingIsTrouble(moments, throws, |d| - 1); }
  }

  // One more event: heard unless an earlier one raised.
  lemma CutGrows(d: seq<Event>, story: seq<Event>, e: Event, throws: nat -> bool)
    requires CutShort(d, story, throws)
    ensures CutShort(if Raised(d, throws) then d else d + [e], story + [e], throws)
    ensures !Raised(d, throws) ==> d == story
  {
  }

  // ---- Every failure has a reason ----

  ghost predicate Reasoned(moments: seq<Moment>) {
    forall m :: m in moments && m.Wrong? ==> !m.failure.reason.NoReason?
  }

  lemma {:induction false} FailureHasReason(moments: seq<Moment>, callback: bool, throws: nat -> bool)
    requires Reasoned(moments) && FirstFailure(moments, callback, throws).Some?
    ensures !FirstFailure(moments, callback, throws).value.reason.NoReason?
    decreases |moments|
  {
    var front := moments[..|moments| - 1];
    if FirstFailure(front, callback, throws).Some? { FailureHasReason(front, callback, throws); }
  }

  lemma {:induction false} WatchIsReasoned(notices: seq<Notice>)
    ensures Reasoned(Watch(notices).moments)
    decreases |notices|
  {
    if notices != [] { WatchIsReasoned(notices[..|notices| - 1]); }
  }

  lemma ReasonedAppends(moments: seq<Moment>, more: seq<Moment>)
    requires Reasoned(moments) && Reasoned(more)
    ensures Reasoned(moments + more)
  {
  }

  lemma OutcomeIsReasoned(before: seq<Moment>, outcome: Outcome)
    requires Reasoned(before)
    ensures Reasoned(OutcomeMoments(before, outcome))
  {
    hide FirstFailure, Events;
    var one := before + IfWrong(OutcomeFailure(outcome));
    ReasonedAppends(before, IfWrong(OutcomeFailure(outcome)));
    ReasonedAppends(one, IfWrong(ReportFailure(outcome.problem)));
  }

  lemma BodyIsReasoned(course: Course)
    ensures Reasoned(Body(course))
  {
    hide Watch, OutcomeMoments;
    match course
    case Ran(notices, outcome) =>
      WatchIsReasoned(notices);
      OutcomeIsReasoned(Watch(notices).moments, outcome);
    case RaisedInRun(notices, e) => WatchIsReasoned(notices);
    case RaisedAfterRun(notices, outcome, recorded, e) => WatchIsReasoned(notices);
    case _ =>
  }

  // Nothing wrong means a run with a good reason.
  lemma CompletionHasReason(course: Course)
    requires FirstWrong(Body(course)).None?
    ensures course.Ran? && !Completion(course).NoReason?
  {
    hide FirstFailure, Events, Watch;
    match course
    case Ran(notices, outcome) =>
      var told := Watch(notices).moments + IfWrong(OutcomeFailure(outcome)) + IfWrong(ReportFailure(outcome.problem));
      WrongAppends(told, Some(NO_REASON));
      assert told + [] == told;
    case NoDescription(error) =>
      WrongAppends(OPENING.moments, Some(SessionFailure(error, SessionCreation, StartupFailure)));
    case NoPolicy(error) =>
      WrongAppends(OPENING.moments, Some(SessionFailure(error, SessionCreation, StartupFailure)));
    case RaisedEarly(e) => WrongAppends(OPENING.moments, Some(ExceptionFailure(e, false, Creating)));
    case RaisedInRun(notices, e) =>
      WrongAppends(Watch(notices).moments, Some(ExceptionFailure(e, true, Watch(notices).phase)));
    case RaisedAfterRun(notices, outcome, recorded, e) =>
      WrongAppends(Watch(notices).moments + (if recorded then IfWrong(OutcomeFailure(outcome)) else []),
                   Some(ExceptionFailure(e, false, Watch(notices).phase)));
  }
}
