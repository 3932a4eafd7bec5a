/** What the callback of a session hears about an output, when its reports come from the controller. */
module SessionOutputs {
  import opened SessionStory
  import opened OutputTypes
  import M = ControllerModel
  import I = ControllerInvariant
  import O = ControllerObserver
  import C = ControlModel
  import Wrappers

  datatype Report = Report(id: nat, output: OutputState)

  // The reports about outputs among the notices, in order.
  function Reports(notices: seq<Notice>): seq<Report> {
    if notices == [] then []
    else
      var last := notices[|notices| - 1];
      Reports(notices[..|notices| - 1]) + if last.OutputReport? then [Report(last.id, last.output)] else []
  }

  // What an observer that was told these snapshots reports.
  function ReportsOf(told: C.History): seq<Report> {
    match told
    case Start => []
    case Then(past, e) => ReportsOf(past) + [Report(e.id, e.state)]
  }

  // How often an event is told.
  function Times(events: seq<Event>, e: Event): nat {
    if events == [] then 0
    else Times(events[..|events| - 1], e) + if events[|events| - 1] == e then 1 else 0
  }

  function RunningReports(reports: seq<Report>, id: nat): nat {
    if reports == [] then 0
    else
      RunningReports(reports[..|reports| - 1], id)
      + if reports[|reports| - 1] == Report(id, OutputState.Running) then 1 else 0
  }

  lemma {:induction false} RunsAreReported(told: C.History, id: nat)
    ensures RunningReports(ReportsOf(told), id) == O.Runs(told, id)
  {
    if told.Then? {
      RunsAreReported(told.past, id);
      var reports := ReportsOf(told);
      assert reports[..|reports| - 1] == ReportsOf(told.past);
    }
  }

  lemma TimesAppends(events: seq<Event>, x: Event, e: Event)
    ensures Times(events + [x], e) == Times(events, e) + if x == e then 1 else 0
  {
    assert (events + [x])[..|events|] == events;
  }

  // A moment that is not the event itself does not change how often it is told.
  lemma MomentTimes(moments: seq<Moment>, m: Moment, e: Event)
    ensures Times(Events(moments + [m]), e) == Times(Events(moments), e) + if m.Told? && m.event == e then 1 else 0
  {
    MomentAppends(moments, m, false, (k: nat) => false);
    if m.Told? { TimesAppends(Events(moments), m.event, e); } else { assert Events(moments) + [] == Events(moments); }
  }

  lemma IfWrongTimes(moments: seq<Moment>, f: Wrappers.Option<SessionFailure>, e: Event)
    ensures Times(Events(moments + IfWrong(f)), e) == Times(Events(moments), e)
  {
    WrongAppends(moments, f);
  }

  // One notice: OUTPUT_READY is told exactly for a report that the output runs.
  lemma NoticeTimes(w: Watched, notice: Notice, id: nat)
    ensures Times(Events(Seen(w, notice).moments), OutputReady(id)) ==
            Times(Events(w.moments), OutputReady(id))
            + if notice == OutputReport(id, OutputState.Running) then 1 else 0
  {
    hide Events, Times, FirstFailure;
    assert w.moments + [] == w.moments;
    match notice
    case PreparedReport(mismatch, problem) =>
      IfWrongTimes(w.moments, PreparedFailure(mismatch, problem), OutputReady(id));
    case ProgressReport(problem) =>
      IfWrongTimes(w.moments, ReportFailure(problem), OutputReady(id));
      MomentTimes(w.moments, Told(StateChanged(State.Running), Executing), OutputReady(id));
    case OutputReport(i, output) =>
      var one := w.moments + [Told(OutputChanged(i, output), w.phase)];
      MomentTimes(w.moments, Told(OutputChanged(i, output), w.phase), OutputReady(id));
      MomentTimes(one, Told(OutputReady(i), w.phase), OutputReady(id));
      assert Seen(w, notice).moments == if output.Running? then one + [Told(OutputReady(i), w.phase)] else one;
  }

  lemma {:induction false} WatchTimes(notices: seq<Notice>, id: nat)
    ensures Times(Events(Watch(notices).moments), OutputReady(id)) == RunningReports(Reports(notices), id)
    decreases |notices|
  {
    if notices == [] {
      MomentTimes([], Told(StateChanged(Starting), Creating), OutputReady(id));
      assert [] + [Told(StateChanged(Starting), Creating)] == OPENING.moments;
    } else {
      var front, last := notices[..|notices| - 1], notices[|notices| - 1];
      WatchTimes(front, id);
      NoticeTimes(Watch(front), last, id);
      var reports := Reports(notices);
      if last.OutputReport? {
        assert reports[..|reports| - 1] == Reports(front);
      } else {
        assert reports == Reports(front);
      }
    }
  }

  function NoticesOf(course: Course): seq<Notice> {
    match course
    case Ran(notices, _) => notices
    case RaisedInRun(notices, _) => notices
    case RaisedAfterRun(notices, _, _, _) => notices
    case _ => []
  }

  // After the controller has run, at most Stopping is told before the end.
  ghost predicate StopsAfter(before: seq<Event>, told: seq<Event>) {
    told == before || told == before + [StateChanged(Stopping)]
  }

  lemma OutcomeEvents(before: seq<Moment>, outcome: Outcome)
    ensures StopsAfter(Events(before), Events(OutcomeMoments(before, outcome)))
  {
    hide Events, FirstFailure;
    var one := before + IfWrong(OutcomeFailure(outcome));
    var told := one + IfWrong(ReportFailure(outcome.problem));
    WrongAppends(before, OutcomeFailure(outcome));
    WrongAppends(one, ReportFailure(outcome.problem));
    assert told + [] == told;
    WrongAppends(told, Wrappers.Some(NO_REASON));
    ToldAppends(told, StateChanged(Stopping), Ending);
  }

  lemma BodyEvents(course: Course)
    ensures StopsAfter(Events(Watch(NoticesOf(course)).moments), Events(Body(course)))
  {
    assert Watch([]).moments == OPENING.moments;
    hide Events, FirstFailure, Watch, OutcomeMoments;
    match course
    case NoDescription(error) =>
      WrongAppends(OPENING.moments, Wrappers.Some(SessionFailure(error, SessionCreation, StartupFailure)));
    case NoPolicy(error) =>
      WrongAppends(OPENING.moments, Wrappers.Some(SessionFailure(error, SessionCreation, StartupFailure)));
    case RaisedEarly(x) => WrongAppends(OPENING.moments, Wrappers.Some(ExceptionFailure(x, false, Creating)));
    case Ran(notices, outcome) => OutcomeEvents(Watch(notices).moments, outcome);
    case RaisedInRun(notices, x) =>
      WrongAppends(Watch(notices).moments, Wrappers.Some(ExceptionFailure(x, true, Watch(notices).phase)));
    case RaisedAfterRun(notices, outcome, recorded, x) =>
      var w := Watch(notices);
      var first := if recorded then OutcomeFailure(outcome) else Wrappers.None;
      WrongAppends(w.moments, first);
      WrongAppends(w.moments + IfWrong(first), Wrappers.Some(ExceptionFailure(x, false, w.phase)));
  }

  // The story: what is told while the controller runs, and session events.
  lemma StoryTail(course: Course) returns (tail: seq<Event>)
    ensures Story(course) == Events(Watch(NoticesOf(course)).moments) + tail
    ensures forall e :: e in tail ==> !IsOutput(e)
  {
    hide Events, FirstFailure, Watch, Body;
    BodyEvents(course);
    var failure := FirstWrong(Body(course));
    var before, last := Events(Watch(NoticesOf(course)).moments), LastEvents(failure, FinalReason(course, failure));
    tail := (if Events(Body(course)) == before then [] else [StateChanged(Stopping)]) + last;
    assert Story(course) == before + tail;
  }

  lemma {:induction false} TailTimes(events: seq<Event>, tail: seq<Event>, e: Event)
    requires e !in tail
    ensures Times(events + tail, e) == Times(events, e)
    decreases |tail|
  {
    if tail == [] {
      assert events + tail == events;
    } else {
      var front, last := tail[..|tail| - 1], tail[|tail| - 1];
      TailTimes(events, front, e);
      TimesAppends(events + front, last, e);
      assert events + tail == events + front + [last];
    }
  }

  lemma {:induction false} PrefixTimes(part: seq<Event>, whole: seq<Event>, e: Event)
    requires part <= whole
    ensures Times(part, e) <= Times(whole, e)
    decreases |whole|
  {
    hide Times;
    if part != whole {
      var front := whole[..|whole| - 1];
      assert part <= front;
      PrefixTimes(part, front, e);
      TimesAppends(front, whole[|whole| - 1], e);
      assert front + [whole[|whole| - 1]] == whole;
    }
  }

  /** OUTPUT_READY is told exactly as often as the controller reports that the output runs. */
  lemma ReadyMeansRunning(course: Course, id: nat)
    ensures Times(Story(course), OutputReady(id)) == RunningReports(Reports(NoticesOf(course)), id)
  {
    hide Events, Times, Watch, Story;
    var tail := StoryTail(course);
    WatchTimes(NoticesOf(course), id);
    TailTimes(Events(Watch(NoticesOf(course)).moments), tail, OutputReady(id));
  }

  // ---- What comes before OUTPUT_READY ----

  predicate Beginning(x: OutputState) {
    x.Preparing? || x.Waiting?
  }

  ghost predicate EarlyReports(reports: seq<Report>) {
    forall i, j :: 0 <= i < j < |reports| && reports[i].id == reports[j].id && reports[j].output.Running? ==>
      Beginning(reports[i].output)
  }

  // Before OUTPUT_READY of an output, its changes are to Preparing, Waiting or Running.
  ghost predicate EarlyEvents(events: seq<Event>) {
    forall i, j :: 0 <= i < j < |events| && events[j].OutputReady? && events[i].OutputChanged?
                   && events[i].id == events[j].id ==>
      Beginning(events[i].output) || events[i].output.Running?
  }

  lemma {:induction false} ReportWasTold(told: C.History, r: Report)
    requires r in ReportsOf(told)
    ensures exists e :: C.Occurs(told, e) && e.id == r.id && e.state == r.output
  {
    if r in ReportsOf(told.past) {
      ReportWasTold(told.past, r);
      var e :| C.Occurs(told.past, e) && e.id == r.id && e.state == r.output;
      assert C.Occurs(told, e);
    } else {
      assert C.Occurs(told, told.entry);
    }
  }

  lemma {:induction false} ToldReportsAreEarly(told: C.History)
    requires O.Early(told)
    ensures EarlyReports(ReportsOf(told))
  {
    if told.Then? {
      assert forall a, b :: C.Before(told.past, a, b) ==> C.Before(told, a, b);
      ToldReportsAreEarly(told.past);
      var front, all := ReportsOf(told.past), ReportsOf(told);
      forall i, j | 0 <= i < j < |all| && all[i].id == all[j].id && all[j].output.Running?
        ensures Beginning(all[i].output)
      {
        if j < |front| {
          assert all[i] == front[i] && all[j] == front[j];
        } else {
          assert all[i] == front[i];
          ReportWasTold(told.past, front[i]);
          var e :| C.Occurs(told.past, e) && e.id == front[i].id && e.state == front[i].output;
          assert C.Before(told, e, told.entry);
        }
      }
    }
  }

  lemma EarlyFront(notices: seq<Notice>)
    requires notices != [] && EarlyReports(Reports(notices))
    ensures EarlyReports(Reports(notices[..|notices| - 1]))
  {
    var front, all := Reports(notices[..|notices| - 1]), Reports(notices);
    assert forall i :: 0 <= i < |front| ==> front[i] == all[i];
  }

  lemma NoticeEvents(w: Watched, notice: Notice)
    ensures var before := Events(w.moments);
            Events(Seen(w, notice).moments) ==
            match notice
            case PreparedReport(_, _) => before
            case ProgressReport(_) =>
              if NoticeMoments(w, notice) == [Told(StateChanged(State.Running), Executing)]
              then before + [StateChanged(State.Running)] else before
            case OutputReport(id, output) =>
              before + [OutputChanged(id, output)] + if output.Running? then [OutputReady(id)] else []
  {
    hide Events, FirstFailure;
    assert w.moments + [] == w.moments;
    match notice
    case PreparedReport(mismatch, problem) => WrongAppends(w.moments, PreparedFailure(mismatch, problem));
    case ProgressReport(problem) =>
      WrongAppends(w.moments, ReportFailure(problem));
      ToldAppends(w.moments, StateChanged(State.Running), Executing);
    case OutputReport(id, output) =>
      var one := w.moments + [Told(OutputChanged(id, output), w.phase)];
      ToldAppends(w.moments, OutputChanged(id, output), w.phase);
      ToldAppends(one, OutputReady(id), w.phase);
      assert Seen(w, notice).moments == if output.Running? then one + [Told(OutputReady(id), w.phase)] else one;
  }

  lemma OpeningEvents()
    ensures Events(Watch([]).moments) == [StateChanged(Starting)]
  {
    ToldAppends([], StateChanged(Starting), Creating);
    assert [] + [Told(StateChanged(Starting), Creating)] == OPENING.moments;
  }

  lemma {:induction false} ChangeWasReported(notices: seq<Notice>, id: nat, output: OutputState)
    requires OutputChanged(id, output) in Events(Watch(notices).moments)
    ensures Report(id, output) in Reports(notices)
    decreases |notices|
  {
    hide Events, FirstFailure, Seen;
    if notices == [] {
      OpeningEvents();
    } else {
      var front, last := notices[..|notices| - 1], notices[|notices| - 1];
      NoticeEvents(Watch(front), last);
      if OutputChanged(id, output) in Events(Watch(front).moments) { ChangeWasReported(front, id, output); }
    }
  }

  lemma EarlyGrows(before: seq<Event>, e: Event)
    requires EarlyEvents(before)
    requires e.OutputReady? ==>
               forall x :: x in before && x.OutputChanged? && x.id == e.id ==> Beginning(x.output) || x.output.Running?
    ensures EarlyEvents(before + [e])
  {
    var all := before + [e];
    forall i, j | 0 <= i < j < |all| && all[j].OutputReady? && all[i].OutputChanged? && all[i].id == all[j].id
      ensures Beginning(all[i].output) || all[i].output.Running?
    {
      assert all[i] == before[i];
      if j < |before| { assert all[j] == before[j]; }
    }
  }

  lemma {:induction false} WatchIsEarly(notices: seq<Notice>)
    requires EarlyReports(Reports(notices))
    ensures EarlyEvents(Events(Watch(notices).moments))
    decreases |notices|
  {
    hide Events, FirstFailure, Seen, EarlyReports;
    if notices == [] {
      OpeningEvents();
    } else {
      var front, last := notices[..|notices| - 1], notices[|notices| - 1];
      var before := Events(Watch(front).moments);
      EarlyFront(notices);
      WatchIsEarly(front);
      NoticeEvents(Watch(front), last);
      hide EarlyEvents;
      match last
      case PreparedReport(_, _) =>
      case ProgressReport(_) => EarlyGrows(before, StateChanged(State.Running));
      case OutputReport(id, output) =>
        var one := before + [OutputChanged(id, output)];
        EarlyGrows(before, OutputChanged(id, output));
        if output.Running? {
          ReadyIsEarly(notices, id);
          EarlyGrows(one, OutputReady(id));
        } else {
          assert one + [] == one;
        }
    }
  }

  lemma ReadyIsEarly(notices: seq<Notice>, id: nat)
    requires notices != [] && EarlyReports(Reports(notices))
    requires notices[|notices| - 1] == OutputReport(id, OutputState.Running)
    ensures forall x :: x in Events(Watch(notices[..|notices| - 1]).moments) && x.OutputChanged? && x.id == id ==>
              Beginning(x.output)
  {
    hide Events, Watch, Reports, EarlyReports;
    var front := notices[..|notices| - 1];
    forall x | x in Events(Watch(front).moments) && x.OutputChanged? && x.id == id
      ensures Beginning(x.output)
    {
      ChangeWasReported(front, id, x.output);
      LastReportIsEarly(notices, id, x.output);
    }
  }

  lemma LastReportIsEarly(notices: seq<Notice>, id: nat, output: OutputState)
    requires notices != [] && EarlyReports(Reports(notices))
    requires notices[|notices| - 1] == OutputReport(id, OutputState.Running)
    requires Report(id, output) in Reports(notices[..|notices| - 1])
    ensures Beginning(output)
  {
    var front, all := Reports(notices[..|notices| - 1]), Reports(notices);
    var i :| 0 <= i < |front| && front[i] == Report(id, output);
    assert all[i] == front[i] && all[|front|] == Report(id, OutputState.Running);
  }

  /** A session whose output reports are what a run of the controller told its observer: whatever that run
      was and however the callback raises, it hears OUTPUT_READY of an output at most once. */
  lemma ReadyAtMostOnce(s: M.Sys, steps: seq<M.Step>, course: Course, d: seq<Event>, throws: nat -> bool, id: nat)
    requires I.Valid(s) && O.Observed(s) && CutShort(d, Story(course), throws)
    requires Reports(NoticesOf(course)) == ReportsOf(M.Run(s, steps).told)
    ensures Times(d, OutputReady(id)) <= 1
  {
    hide Times, M.Run, I.Valid, Story, Reports, ReportsOf;
    O.RunKeepsObserved(s, steps);
    RunsAreReported(M.Run(s, steps).told, id);
    ReadyMeansRunning(course, id);
    PrefixTimes(d, Story(course), OutputReady(id));
  }

  /** Unless the run promotes an output that is no longer listed, which only happens while it finishes,
      everything the callback hears of an output before OUTPUT_READY is a change to Preparing, Waiting or
      Running. */
  lemma NothingBadBeforeReady(s: M.Sys, steps: seq<M.Step>, course: Course, d: seq<Event>, throws: nat -> bool)
    requires I.Valid(s) && O.Observed(s) && O.Early(s.told) && CutShort(d, Story(course), throws)
    requires Reports(NoticesOf(course)) == ReportsOf(M.Run(s, steps).told)
    requires O.NeverPromotesUnlisted(s, steps)
    ensures EarlyEvents(d)
  {
    hide M.Run, I.Valid, Story, Reports, ReportsOf, Events, Watch;
    O.RunEarly(s, steps);
    ToldReportsAreEarly(M.Run(s, steps).told);
    WatchIsEarly(NoticesOf(course));
    var tail := StoryTail(course);
    EarlyTail(d, Events(Watch(NoticesOf(course)).moments), tail);
  }

  lemma EarlyTail(d: seq<Event>, before: seq<Event>, tail: seq<Event>)
    requires EarlyEvents(before) && d <= before + tail && forall e :: e in tail ==> !IsOutput(e)
    ensures EarlyEvents(d)
  {
    assert forall k :: |before| <= k < |d| ==> d[k] == tail[k - |before|] && d[k] in tail;
    assert forall k :: 0 <= k < |d| && k < |before| ==> d[k] == before[k];
  }
}
