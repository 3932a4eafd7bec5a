/** What a step does to one output and to one group, and what it tells the observer: stated output by
    output, without the rest of the controller. */
module ControllerMoves {
  import opened Wrappers
  import opened OutputTypes
  import opened ControllerModel
  import opened ControllerInvariant
  import opened ControllerEffects
  import opened ControllerRelease
  import B = RuntimeBranch
  import C = ControlModel
  import X = PreparationExchange

  // ---- An output in its own poll ----

  // Still waiting at its deadline, or for longer than it may.
  predicate Overdue(o: Output, clock: nat, r: OutputReading) {
    && o.state.Waiting?
    && (!Before(clock + r.first + r.second + r.third, o.deadline)
        || clock + r.first + r.second + r.third + r.fourth >= o.startedAt + o.startupWait)
  }

  function Started(s: Sys, id: nat, r: OutputReading): Output
    requires id in s.outputs
  {
    if BecomesRunning(s, PollOutputStep(id, r), id) then Promoted(s.outputs[id]) else s.outputs[id]
  }

  // Its branch as the poll finds it.
  function Found(s: Sys, id: nat, r: OutputReading): B.Branch
    requires id in s.outputs
  {
    var o := Started(s, id, r);
    Observe(if Overdue(o, s.clock, r) then B.Fail(o.branch, Fault(NO_MEDIA, Runtime)) else o.branch, r.during)
  }

  // A failed branch shows in its output.
  function Shown(o: Output): Output {
    if o.branch.fault.None? || o.state.Failed? then o
    else o.(state := Failed, stage := o.branch.fault.value.stage, error := Some(o.branch.fault.value.error))
  }

  function Looked(s: Sys, id: nat, r: OutputReading): Output
    requires id in s.outputs
  {
    Shown(Started(s, id, r).(branch := Observe(B.Poll(Found(s, id, r), r.poll).0, r.after)))
  }

  predicate Retires(s: Sys, id: nat, r: OutputReading)
    requires id in s.outputs
  {
    B.Poll(Found(s, id, r), r.poll).1
  }

  // Its retirement is reported later: it is changing, and its group or its preparation is not done.
  predicate Defers(s: Sys, id: nat, r: OutputReading)
    requires id in s.outputs
  {
    && s.changing == Some(id) && !BecomesRunning(s, PollOutputStep(id, r), id)
    && var g := s.outputs[id].groupId;
       (g in s.groups && s.groups[g].outputCount <= 1) || (s.prep.Some? && s.prep.value.id == id)
  }

  // ---- What is told ----

  function Tell(h: C.History, said: seq<Snapshot>): C.History
    decreases |said|
  {
    if said == [] then h else Tell(C.Then(h, said[0]), said[1..])
  }

  function Rejection(id: nat, f: Fault): Snapshot {
    Snapshot(id, Failed, f.stage, Some(f.error))
  }

  function Dismissal(id: nat, f: Fault): Snapshot {
    Snapshot(id, Retired, f.stage, Some(f.error))
  }

  function SaidOfOutput(s: Sys, id: nat, r: OutputReading): seq<Snapshot>
    requires id in s.outputs
  {
    (if BecomesRunning(s, PollOutputStep(id, r), id) then [SnapshotOf(id, Promoted(s.outputs[id]))] else [])
    + (if Looked(s, id, r).state.Failed? && !s.outputs[id].state.Failed?
       then [SnapshotOf(id, Looked(s, id, r))] else [])
    + (if Retires(s, id, r) && !Defers(s, id, r) then [SnapshotOf(id, Looked(s, id, r).(state := Retired))] else [])
  }

  // The output after a drain, accepted or not.
  function Drained(o: Output, generation: Option<nat>, closing: Option<Fault>): Output {
    var p := o.(generation := if generation.Some? then generation.value else o.generation, stage := Drain);
    if !o.branch.state.Active? then p.(branch := B.Fail(o.branch, Fault(CANCELLED, Drain)))
    else if closing.Some? then p.(branch := B.Record(o.branch, closing.value).(state := B.Broken))
    else p.(branch := o.branch.(state := B.Closing), state := Draining)
  }

  function SaidOfDrain(id: nat, o: Output, closing: Option<Fault>): seq<Snapshot> {
    if o.branch.state.Active? && closing.None? then [Snapshot(id, Draining, Drain, o.error)] else []
  }

  function SaidOfTake(s: Sys, r: TakeReading): seq<Snapshot> {
    if !CanTake(s) then []
    else
      var id := s.ctl.pending.value.id;
      if s.ctl.pending.value.addition then
        if r.begin.missing.Some? then [Rejection(id, r.begin.missing.value), Dismissal(id, r.begin.missing.value)]
        else
          [Snapshot(id, Preparing, Preparation, None)]
          + if r.begin.noWorker.None? then []
            else [Rejection(id, r.begin.noWorker.value), Dismissal(id, r.begin.noWorker.value)]
      else if id !in s.outputs then [Rejection(id, Fault(NO_BRANCH, Drain)), Dismissal(id, Fault(NO_BRANCH, Drain))]
      else SaidOfDrain(id, s.outputs[id], r.closing)
  }

  // Why a constructed candidate does not become an output, if it does not.
  function Objection(s: Sys, task: Task, r: PublishReading): Option<Fault> {
    if task.broken.Some? then task.broken
    else if task.plan.Failure? then Some(Fault(CANCELLED, Publication))
    else if Refusal(s, task, r).Some? then Refusal(s, task, r)
    else if r.ending.OutputNotInserted? then Some(r.ending.fault)
    else None
  }

  function SaidOfCandidate(s: Sys, r: PublishReading): seq<Snapshot> {
    if s.prep.None? || !s.prep.value.exchange.stage.Constructed? then []
    else
      var task := s.prep.value;
      var objection := Objection(s, task, r);
      if objection.Some? then [Rejection(task.id, objection.value)]
      else if EndingFor(task, r.ending).Completed? then [Snapshot(task.id, Waiting, Runtime, None)]
      else []
  }

  // The deferred notification can be sent.
  predicate Due(s: Sys) {
    s.terminal.Some? && s.prep.None? && (s.terminalGroup.Some? ==> s.terminalGroup.value !in s.groups)
  }

  // The group is unused, and retires in this poll.
  predicate GroupGoes(s: Sys, g: nat, r: GroupReading) {
    g in s.groups && s.groups[g].outputCount == 0 && Polled(s.groups[g], r).1
  }

  // Its failure reaches the notification that waits for it.
  predicate Amends(s: Sys, g: nat, r: GroupReading) {
    && GroupGoes(s, g, r) && s.terminalGroup == Some(g) && s.terminal.Some? && s.terminal.value.error.None?
    && Polled(s.groups[g], r).0.branch.fault.Some?
  }

  function SaidOfGroup(s: Sys, g: nat, r: GroupReading): seq<Snapshot> {
    if Amends(s, g, r) then [Rejection(s.terminal.value.id, Polled(s.groups[g], r).0.branch.fault.value)] else []
  }

  /** Everything a step tells the observer, in order. */
  function Said(s: Sys, step: Step): seq<Snapshot> {
    match step
    case TakeStep(r) => SaidOfTake(s, r)
    case Planned(r) =>
      if s.prep.None? || !s.prep.value.exchange.stage.Planned? || Admission(s, s.prep.value, r).Success? then []
      else [Rejection(s.prep.value.id, Admission(s, s.prep.value, r).error)]
    case Constructed(r) => SaidOfCandidate(s, r)
    case Budget(elapsed) =>
      if s.prep.None? || s.prep.value.expired || s.clock + elapsed < s.prep.value.deadline then []
      else [Rejection(s.prep.value.id, Fault(EXPIRED, Preparation))]
    case NotifyStep => if Due(s) then [s.terminal.value] else []
    case PollGroupStep(g, r) => SaidOfGroup(s, g, r)
    case PollOutputStep(id, r) => if id in s.outputs && s.unpolled == {} then SaidOfOutput(s, id, r) else []
    case FinishStep =>
      if s.ctl.pending.Some? then
        var id := s.ctl.pending.value.id;
        [Rejection(id, Fault(CANCELLED, Publication)), Dismissal(id, Fault(CANCELLED, Publication))]
      else if Due(s) then [s.terminal.value] else []
    case FinishOutputStep(id, cause, _, closing) =>
      if id in s.outputs && s.finishing && cause.None? then SaidOfDrain(id, s.outputs[id], closing) else []
    case _ => []
  }

  // ---- What becomes of an output ----

  /** The output after the step, if it is still there. */
  function Moved(s: Sys, step: Step, id: nat): Output
    requires id in s.outputs
  {
    var o := s.outputs[id];
    match step
    case OutputFails(i, f) => if i == id then o.(branch := B.Record(o.branch, f)) else o
    case Count(i, _, amount) => if i == id then o.(branch := Busier(o.branch, amount)) else o
    case PollGroupStep(g, _) =>
      if g == o.groupId && g in s.groups && s.groups[g].branch.fault.Some? && o.branch.fault.None?
      then o.(branch := B.Fail(o.branch, s.groups[g].branch.fault.value)) else o
    case PollOutputStep(i, r) => if i == id && s.unpolled == {} then Looked(s, id, r) else o
    case TakeStep(r) =>
      if CanTake(s) && s.ctl.pending == Some(Change(id, false)) then Drained(o, r.generation, r.closing) else o
    case FinishOutputStep(i, cause, generation, closing) =>
      if i != id || !s.finishing then o
      else if cause.Some? then o.(branch := B.Fail(o.branch, cause.value))
      else if o.branch.state.Active? then Drained(o, generation, closing)
      else o
    case _ => o
  }

  predicate Goes(s: Sys, step: Step, id: nat)
    requires id in s.outputs
  {
    step.PollOutputStep? && step.id == id && s.unpolled == {} && Retires(s, id, step.outputReading)
  }

  /** The branch of a group after the step, if the group is still there. */
  function MovedBranch(s: Sys, step: Step, g: nat): B.Branch
    requires g in s.groups
  {
    var b := s.groups[g].branch;
    match step
    case GroupFails(h, f, hard) => if h != g then b else if hard then B.Fail(b, f) else B.Record(b, f)
    case Count(_, h, amount) => if h == g then Busier(b, amount) else b
    case PollGroupStep(h, r) => if h == g && s.groups[g].outputCount == 0 then Polled(s.groups[g], r).0.branch else b
    case _ => b
  }

  // ---- Proof: outputs ----

  lemma ExamineLooks(s: Sys, id: nat, r: OutputReading)
    requires id in s.outputs
    ensures var (t, retired) := Examine(s, id, r);
            t.outputs == s.outputs[id := Looked(s, id, r)] && retired == Retires(s, id, r)
            && t.clock == s.clock + r.first + r.second + r.third + r.fourth
  {
    hide B.Poll, B.Fail, C.Publish;
    var a := Promote(s, id, r);
    PromoteLooks(s, id, r);
    var b := FailOverdue(a, id, r);
    var o := Started(s, id, r);
    assert b.outputs ==
           s.outputs[id := if Overdue(o, s.clock, r)
                           then o.(branch := B.Fail(o.branch, Fault(NO_MEDIA, Runtime))) else o];
    var c := PollBranch(b, id, r).0;
    assert c.outputs == s.outputs[id := o.(branch := Observe(B.Poll(Found(s, id, r), r.poll).0, r.after))];
    NoteShows(c, id);
  }

  lemma PromoteLooks(s: Sys, id: nat, r: OutputReading)
    requires id in s.outputs
    ensures var t := Promote(s, id, r);
            t.outputs == s.outputs[id := Started(s, id, r)] && t.clock == s.clock + r.first + r.second
  {
    if !BecomesRunning(s, PollOutputStep(id, r), id) { assert s.outputs[id := s.outputs[id]] == s.outputs; }
  }

  lemma NoteShows(s: Sys, id: nat)
    requires id in s.outputs
    ensures NoteFailure(s, id).outputs == s.outputs[id := Shown(s.outputs[id])]
    ensures NoteFailure(s, id).clock == s.clock
  {
    if NoteFailure(s, id) == s { assert s.outputs[id := s.outputs[id]] == s.outputs; }
  }

  lemma PollOutputMoves(s: Sys, step: Step, id: nat)
    requires step.PollOutputStep? && id in s.outputs
    ensures var t := Apply(s, step);
            (id in t.outputs <==> !Goes(s, step, id)) && (id in t.outputs ==> t.outputs[id] == Moved(s, step, id))
  {
    hide Examine, Retire, Looked, Retires;
    if step.id in s.outputs && s.unpolled == {} {
      ExamineLooks(s, step.id, step.outputReading);
      RetireEffect(Examine(s, step.id, step.outputReading).0, step.id);
    }
  }

  lemma PollGroupMoves(s: Sys, step: Step, id: nat)
    requires step.PollGroupStep? && id in s.outputs
    ensures var t := Apply(s, step); id in t.outputs && t.outputs[id] == Moved(s, step, id)
  {
    var g := step.group;
    if g in s.groups {
      hide PollUnused, B.Fail;
      var u := s.(unpolled := s.unpolled - {g});
      if s.groups[g].outputCount == 0 {
        PollUnusedEffect(if s.groups[g].branch.fault.Some? then FailMembers(u, g) else u, g, step.groupReading);
      }
    }
  }

  lemma DrainMoves(s: Sys, id: nat, generation: Option<nat>, closing: Option<Fault>)
    requires id in s.outputs
    ensures DrainOutput(s, id, generation, closing).outputs ==
            s.outputs[id := Drained(s.outputs[id], generation, closing)]
  {
    var o := s.outputs[id];
    if o.branch.state.Active? && closing.Some? {
      assert B.Fail(B.Record(o.branch, closing.value).(state := B.Broken), Fault(CANCELLED, Drain)) ==
             B.Record(o.branch, closing.value).(state := B.Broken);
    }
  }

  lemma TakeMoves(s: Sys, step: Step, id: nat)
    requires Valid(s) && step.TakeStep? && id in s.outputs
    ensures var t := Apply(s, step); id in t.outputs && t.outputs[id] == Moved(s, step, id)
  {
    PendingAdditionIsNew(s);
    hide Valid, Apply, Take, Drained, Moved, DrainOutput;
    TakeApplies(s, step);
    TakeIsMove(s, step, id);
    if CanTake(s) {
      var change := s.ctl.pending.value;
      if !change.addition && change.id in s.outputs {
        assert change == Change(change.id, false);
        TakeDrains(s, step.take);
        DrainMoves(Taken(s), change.id, step.take.generation, step.take.closing);
      } else {
        TakeSpares(s, step.take);
      }
    } else {
      NothingTaken(s, step.take);
    }
  }

  lemma TakeIsMove(s: Sys, step: Step, id: nat)
    requires step.TakeStep? && id in s.outputs
    ensures Moved(s, step, id) ==
            if CanTake(s) && s.ctl.pending == Some(Change(id, false))
            then Drained(s.outputs[id], step.take.generation, step.take.closing) else s.outputs[id]
  {
    hide Drained, CanTake;
  }

  lemma NothingTaken(s: Sys, r: TakeReading)
    requires !CanTake(s)
    ensures Take(s, r) == s
  {
  }

  lemma TakeDrains(s: Sys, r: TakeReading)
    requires CanTake(s) && !s.ctl.pending.value.addition && s.ctl.pending.value.id in s.outputs
    ensures Take(s, r) == DrainOutput(Taken(s), s.ctl.pending.value.id, r.generation, r.closing)
    ensures Taken(s).outputs == s.outputs
  {
    hide DrainOutput, BeginPreparation, Notify, Reject;
  }

  // A command that is no removal of an output leaves the outputs alone.
  lemma TakeSpares(s: Sys, r: TakeReading)
    requires CanTake(s) && (s.ctl.pending.value.addition || s.ctl.pending.value.id !in s.outputs)
    ensures Take(s, r).outputs == s.outputs
  {
    hide BeginPreparation, Notify, Reject, DrainOutput;
    var change := s.ctl.pending.value;
    var t := Taken(s);
    if change.addition {
      BeginIsQuiet(t, change.id, r.begin);
      NotifyIsQuiet(BeginPreparation(t, change.id, r.begin));
    } else {
      RejectIsQuiet(t, change.id, Fault(NO_BRANCH, Drain));
      NotifyIsQuiet(Reject(t, change.id, Fault(NO_BRANCH, Drain)));
    }
  }

  lemma TakeApplies(s: Sys, step: Step)
    requires step.TakeStep?
    ensures Apply(s, step) == Take(s, step.take)
  {
  }

  lemma PendingAdditionIsNew(s: Sys)
    requires Valid(s)
    ensures s.ctl.pending.Some? && s.ctl.pending.value.addition ==> s.ctl.pending.value.id !in s.outputs
  {
  }

  lemma FinishOutputMoves(s: Sys, step: Step, id: nat)
    requires step.FinishOutputStep? && id in s.outputs
    ensures var t := Apply(s, step); id in t.outputs && t.outputs[id] == Moved(s, step, id)
  {
    hide DrainOutput, Drained, B.Fail;
    if step.id in s.outputs { DrainMoves(s, step.id, step.generation, step.closing); }
  }

  lemma CandidateIsNew(s: Sys)
    requires Valid(s) && s.prep.Some? && X.ControlOwns(s.prep.value.exchange)
    ensures s.prep.value.id !in s.outputs && s.terminal.None? && !s.prep.value.exchange.release
  {
  }

  lemma ConstructedMoves(s: Sys, step: Step, id: nat)
    requires Valid(s) && step.Constructed? && id in s.outputs
    ensures var t := Apply(s, step); id in t.outputs && t.outputs[id] == s.outputs[id]
  {
    hide Settle, Valid;
    if s.prep.Some? && s.prep.value.exchange.stage.Constructed? {
      CandidateIsNew(s);
      SettleOutputs(s, step.publish);
    }
  }

  // Steps that leave the outputs alone.
  predicate Elsewhere(step: Step) {
    || step.CallAdd? || step.CallRemove? || step.CallStop? || step.Work? || step.GroupFails? || step.Budget?
    || step.Planned? || step.Collect? || step.NotifyStep? || step.FinishStep?
  }

  lemma ElsewhereMoves(s: Sys, step: Step)
    requires Elsewhere(step)
    ensures Apply(s, step).outputs == s.outputs
  {
    hide LookAtPlanned, BeginFinish, Expire, Notify, WorkerTurn, GroupFault;
    match step
    case Planned(r) => PlannedIsQuiet(s, r);
    case FinishStep => FinishIsQuiet(s);
    case Budget(elapsed) => ExpireIsQuiet(s, elapsed);
    case NotifyStep => NotifyIsQuiet(s);
    case Work(r) => WorkerEffect(s, r);
    case GroupFails(g, f, hard) => GroupFaultMoves(s, g, f, hard);
    case _ =>
  }

  lemma GroupFaultMoves(s: Sys, g: nat, f: Fault, hard: bool)
    ensures GroupFault(s, g, f, hard).outputs == s.outputs
  {
  }

  /** A step leaves an output in place, moved as stated, or takes it out, exactly if it retires. */
  lemma StepMoves(s: Sys, step: Step, id: nat)
    requires Valid(s) && id in s.outputs
    ensures var t := Apply(s, step);
            (id in t.outputs <==> !Goes(s, step, id)) && (id in t.outputs ==> t.outputs[id] == Moved(s, step, id))
  {
    if Elsewhere(step) {
      hide Apply, Valid;
      ElsewhereMoves(s, step);
    } else {
      hide Valid, PollOutput, PollGroup, LookAtConstructed, Take, FinishOutput, Looked, Drained, B.Fail;
      match step
      case PollOutputStep(_, _) => PollOutputMoves(s, step, id);
      case PollGroupStep(_, _) => PollGroupMoves(s, step, id);
      case Constructed(_) => ConstructedMoves(s, step, id);
      case TakeStep(_) => TakeMoves(s, step, id);
      case FinishOutputStep(_, _, _, _) => FinishOutputMoves(s, step, id);
      case OutputFails(_, _) =>
      case Count(_, _, _) =>
    }
  }

  /** An output comes only from a constructed candidate nobody objects to, and as stated. */
  lemma StepBrings(s: Sys, step: Step, id: nat)
    requires Valid(s) && id !in s.outputs
    ensures id in Apply(s, step).outputs <==>
            && step.Constructed? && s.prep.Some? && s.prep.value.exchange.stage.Constructed? && s.prep.value.id == id
            && Objection(s, s.prep.value, step.publish).None?
    ensures id in Apply(s, step).outputs ==> Apply(s, step).outputs[id] == NewOutput(s.prep.value, step.publish)
  {
    if Elsewhere(step) {
      hide Apply, Valid;
      ElsewhereMoves(s, step);
    } else if step.Constructed? {
      hide Valid, Settle, NewOutput;
      if s.prep.Some? && s.prep.value.exchange.stage.Constructed? { CandidateBrings(s, step.publish, id); }
    } else {
      OthersBringNone(s, step, id);
    }
  }

  lemma CandidateBrings(s: Sys, r: PublishReading, id: nat)
    requires s.prep.Some? && id !in s.outputs
    ensures id in Settle(s, r).outputs <==> id == s.prep.value.id && Objection(s, s.prep.value, r).None?
    ensures id in Settle(s, r).outputs ==> Settle(s, r).outputs[id] == NewOutput(s.prep.value, r)
  {
    hide NewOutput, JoinedGroup, CandidateGraph, Reject, EndingFor;
    SettleEffect(s, r);
  }

  lemma OthersBringNone(s: Sys, step: Step, id: nat)
    requires Valid(s) && id !in s.outputs && !Elsewhere(step) && !step.Constructed?
    ensures id !in Apply(s, step).outputs
  {
    hide Valid, PollGroup, Examine, Retire, Take, FinishOutput;
    match step
    case PollOutputStep(i, r) =>
      if i in s.outputs && s.unpolled == {} {
        ExamineIsQuiet(s, i, r);
        RetireEffect(Examine(s, i, r).0, i);
      }
    case PollGroupStep(g, r) => PollGroupEffect(s, g, r);
    case TakeStep(r) => TakeIsQuiet(s, r);
    case FinishOutputStep(i, cause, generation, closing) => FinishOutputIsQuiet(s, i, cause, generation, closing);
    case OutputFails(_, _) =>
    case Count(_, _, _) =>
  }

  // ---- Proof: groups ----

  lemma RejectLeavesGroups(s: Sys, id: nat, f: Fault)
    requires s.changingGroup.None?
    ensures Reject(s, id, f).groups == s.groups
  {
  }

  lemma RejectSparesOthers(s: Sys, id: nat, f: Fault, g: nat)
    requires g in s.groups && s.changingGroup != Some(g)
    ensures g in Reject(s, id, f).groups && Reject(s, id, f).groups[g] == s.groups[g]
  {
  }

  lemma TakeLeavesGroups(s: Sys, r: TakeReading)
    requires Slot(s)
    ensures Take(s, r).groups == s.groups
  {
    if CanTake(s) {
      hide Reject, Notify, DrainOutput;
      var change := s.ctl.pending.value;
      var t := Taken(s);
      if change.addition {
        NotifyIsQuiet(BeginPreparation(t, change.id, r.begin));
        if r.begin.missing.Some? {
          RejectLeavesGroups(t, change.id, r.begin.missing.value);
        } else if r.begin.noWorker.Some? {
          RejectLeavesGroups(Begun(t, change.id, r.begin).(prep := None), change.id, r.begin.noWorker.value);
        }
      } else if change.id !in s.outputs {
        RejectLeavesGroups(t, change.id, Fault(NO_BRANCH, Drain));
        NotifyIsQuiet(Reject(t, change.id, Fault(NO_BRANCH, Drain)));
      } else {
        DrainIsQuiet(t, change.id, r.generation, r.closing);
      }
    }
  }

  lemma FinishLeavesGroups(s: Sys)
    requires Slot(s)
    ensures BeginFinish(s).groups == s.groups
  {
    hide Reject, Notify;
    var t := s.(finishing := true, ctl := C.SetEnabled(s.ctl, false));
    var (ctl, change) := C.TakeChange(t.ctl);
    if change.Some? { RejectLeavesGroups(t.(ctl := ctl), change.value.id, Fault(CANCELLED, Publication)); }
    NotifyIsQuiet(if change.Some? then Reject(t.(ctl := ctl), change.value.id, Fault(CANCELLED, Publication)) else t);
  }

  lemma PlannedLeavesGroups(s: Sys, r: AdmitReading)
    requires Slot(s)
    ensures LookAtPlanned(s, r).groups == s.groups
  {
    if s.prep.Some? && s.prep.value.exchange.stage.Planned? {
      hide Reject, Admission;
      PlannedEffect(s, r);
      var verdict := Admission(s, s.prep.value, r);
      if verdict.Failure? { RejectLeavesGroups(Judging(s, r), s.prep.value.id, verdict.error); }
    }
  }

  // The same group, perhaps with one member more or less and its nodes published.
  predicate SameEncoder(g: Group, h: Group) {
    h.branch == g.branch && h.generation == g.generation && h.draining == g.draining && h.nodes == g.nodes
  }

  lemma ConstructedMovesGroup(s: Sys, r: PublishReading, g: nat)
    requires Valid(s) && g in s.groups
    ensures var t := LookAtConstructed(s, r); g in t.groups && SameEncoder(s.groups[g], t.groups[g])
  {
    if s.prep.Some? && s.prep.value.exchange.stage.Constructed? {
      TargetIsNew(s, g);
      hide Valid, Settle;
      SettleMovesGroup(s, r, g);
    }
  }

  lemma TargetIsNew(s: Sys, g: nat)
    requires Valid(s) && g in s.groups && s.prep.Some? && s.prep.value.exchange.stage.Constructed?
    ensures var task := s.prep.value;
            task.plan.Success? && task.plan.value.encoding.NewGroup? ==> task.target != g
    ensures s.changingGroup.None?
  {
  }

  lemma SettleMovesGroup(s: Sys, r: PublishReading, g: nat)
    requires g in s.groups && s.prep.Some? && s.changingGroup.None?
    requires var task := s.prep.value;
             task.plan.Success? && task.plan.value.encoding.NewGroup? ==> task.target != g
    ensures var t := Settle(s, r); g in t.groups && SameEncoder(s.groups[g], t.groups[g])
  {
    hide Reject, InsertOutput;
    var task := s.prep.value;
    if task.broken.Some? || task.plan.Failure? {
      RejectLeavesGroups(s, task.id, if task.broken.Some? then task.broken.value else Fault(CANCELLED, Publication));
    } else if Refusal(s, task, r).Some? {
      RejectLeavesGroups(s, task.id, Refusal(s, task, r).value);
    } else if r.ending.OutputNotInserted? {
      RejectSparesOthers(JoinGroup(s, task, r), task.id, r.ending.fault, g);
    } else {
      TargetRegistered(s, task, r);
      InsertedMovesGroup(JoinGroup(s, task, r), task, r, g);
    }
  }

  lemma TargetRegistered(s: Sys, task: Task, r: PublishReading)
    requires task.plan.Success? && Refusal(s, task, r).None?
    ensures Target(task) in JoinGroup(s, task, r).groups
  {
  }

  lemma InsertedMovesGroup(s: Sys, task: Task, r: PublishReading, g: nat)
    requires task.plan.Success? && Target(task) in s.groups && g in s.groups
    requires task.plan.value.encoding.NewGroup? ==> task.target != g
    ensures var t := InsertOutput(s, task, r); g in t.groups && SameEncoder(s.groups[g], t.groups[g])
  {
    hide NewOutput, CandidateGraph;
  }

  lemma PollOutputMovesGroup(s: Sys, id: nat, r: OutputReading, g: nat)
    requires g in s.groups
    ensures var t := PollOutput(s, id, r); g in t.groups && SameEncoder(s.groups[g], t.groups[g])
  {
    if id in s.outputs && s.unpolled == {} {
      hide Examine;
      ExamineIsQuiet(s, id, r);
      RetireSparesEncoder(Examine(s, id, r).0, id, g);
    }
  }

  lemma RetireSparesEncoder(s: Sys, id: nat, g: nat)
    requires id in s.outputs && g in s.groups
    ensures var t := Retire(s, id); g in t.groups && SameEncoder(s.groups[g], t.groups[g])
  {
  }

  // Steps that leave the groups alone.
  predicate OffGroups(step: Step) {
    !step.Constructed? && !step.PollOutputStep? && !step.PollGroupStep? && !step.GroupFails? && !step.Count?
  }

  lemma OffGroupsMoves(s: Sys, step: Step)
    requires Slot(s) && OffGroups(step)
    ensures Apply(s, step).groups == s.groups
  {
    hide LookAtPlanned, BeginFinish, Expire, Notify, WorkerTurn, Take, FinishOutput, Slot;
    match step
    case Planned(r) => PlannedLeavesGroups(s, r);
    case FinishStep => FinishLeavesGroups(s);
    case TakeStep(r) => TakeLeavesGroups(s, r);
    case Budget(elapsed) => ExpireIsQuiet(s, elapsed);
    case NotifyStep => NotifyIsQuiet(s);
    case Work(r) => WorkerEffect(s, r);
    case FinishOutputStep(id, cause, generation, closing) => FinishOutputIsQuiet(s, id, cause, generation, closing);
    case _ =>
  }

  predicate GroupGoesBy(s: Sys, step: Step, g: nat) {
    step.PollGroupStep? && step.group == g && GroupGoes(s, g, step.groupReading)
  }

  /** A step leaves a group in place, its branch moved as stated and its generation the same, or erases it,
      exactly if it is unused and retires. */
  lemma StepMovesGroup(s: Sys, step: Step, g: nat)
    requires Valid(s) && g in s.groups
    ensures var t := Apply(s, step);
            && (g in t.groups <==> !GroupGoesBy(s, step, g))
            && (g in t.groups ==>
                  t.groups[g].branch == MovedBranch(s, step, g) && t.groups[g].generation == s.groups[g].generation)
  {
    SlotOf(s);
    hide Apply, Valid, GroupGoes, MovedBranch;
    match step
    case PollOutputStep(_, _) => EncoderStays(s, step, g);
    case Constructed(_) => EncoderStays(s, step, g);
    case PollGroupStep(_, _) => PolledGroupMoves(s, step, g);
    case GroupFails(_, _, _) => FailedGroupMoves(s, step, g);
    case Count(_, _, _) => FailedGroupMoves(s, step, g);
    case _ =>
      OffGroupsMoves(s, step);
      OffGroupsStays(s, step, g);
  }

  lemma OffGroupsStays(s: Sys, step: Step, g: nat)
    requires g in s.groups && OffGroups(step)
    ensures !GroupGoesBy(s, step, g) && MovedBranch(s, step, g) == s.groups[g].branch
  {
  }

  lemma EncoderStays(s: Sys, step: Step, g: nat)
    requires Valid(s) && g in s.groups && (step.PollOutputStep? || step.Constructed?)
    ensures var t := Apply(s, step);
            g in t.groups && t.groups[g].branch == MovedBranch(s, step, g)
            && t.groups[g].generation == s.groups[g].generation
  {
    hide Valid, PollOutput, LookAtConstructed;
    if step.Constructed? {
      ConstructedMovesGroup(s, step.publish, g);
    } else {
      PollOutputMovesGroup(s, step.id, step.outputReading, g);
    }
  }

  lemma PolledGroupMoves(s: Sys, step: Step, g: nat)
    requires g in s.groups && step.PollGroupStep?
    ensures var t := Apply(s, step);
            && (g in t.groups <==> !GroupGoesBy(s, step, g))
            && (g in t.groups ==>
                  t.groups[g].branch == MovedBranch(s, step, g) && t.groups[g].generation == s.groups[g].generation)
  {
    hide PollGroup, Polled;
    PollGroupEffect(s, step.group, step.groupReading);
    PolledKeepsGeneration(s.groups[g], step.groupReading);
  }

  lemma FailedGroupMoves(s: Sys, step: Step, g: nat)
    requires g in s.groups && (step.GroupFails? || step.Count?)
    ensures var t := Apply(s, step);
            g in t.groups && t.groups[g].branch == MovedBranch(s, step, g)
            && t.groups[g].generation == s.groups[g].generation
  {
    hide B.Fail;
  }

  // A constructed candidate is looked at.
  predicate Publishes(s: Sys, step: Step) {
    step.Constructed? && s.prep.Some? && s.prep.value.exchange.stage.Constructed?
  }

  /** A group comes only with a constructed candidate. */
  lemma GroupsComeByPublication(s: Sys, step: Step)
    requires Valid(s) && !Publishes(s, step)
    ensures forall g :: g in Apply(s, step).groups ==> g in s.groups
  {
    SlotOf(s);
    hide Apply, Valid;
    match step
    case PollOutputStep(_, _) => PollsBringNoGroup(s, step);
    case PollGroupStep(_, _) => PollsBringNoGroup(s, step);
    case Constructed(r) => NothingToPublish(s, step);
    case GroupFails(_, _, _) => FaultsBringNoGroup(s, step);
    case Count(_, _, _) => FaultsBringNoGroup(s, step);
    case _ => OffGroupsMoves(s, step);
  }

  lemma NothingToPublish(s: Sys, step: Step)
    requires step.Constructed? && !Publishes(s, step)
    ensures Apply(s, step) == s
  {
  }

  lemma FaultsBringNoGroup(s: Sys, step: Step)
    requires step.GroupFails? || step.Count?
    ensures forall g :: g in Apply(s, step).groups ==> g in s.groups
  {
  }

  lemma PollsBringNoGroup(s: Sys, step: Step)
    requires step.PollOutputStep? || step.PollGroupStep?
    ensures forall g :: g in Apply(s, step).groups ==> g in s.groups
  {
    hide PollGroup, Examine, Retire;
    if step.PollGroupStep? {
      PollGroupEffect(s, step.group, step.groupReading);
    } else if step.id in s.outputs && s.unpolled == {} {
      ExamineIsQuiet(s, step.id, step.outputReading);
      RetireEffect(Examine(s, step.id, step.outputReading).0, step.id);
    }
  }

  lemma SlotOf(s: Sys)
    requires Valid(s)
    ensures Slot(s)
  {
  }

  lemma PolledKeepsGeneration(group: Group, r: GroupReading)
    ensures Polled(group, r).0.generation == group.generation
  {
  }

  // ---- Proof: what is told ----

  lemma ToldNothing(h: C.History)
    ensures Tell(h, []) == h
  {
  }

  lemma ToldOne(h: C.History, a: Snapshot)
    ensures Tell(h, [a]) == C.Then(h, a)
  {
    assert [a][1..] == [];
  }

  lemma {:induction false} ToldTwice(h: C.History, a: seq<Snapshot>, b: seq<Snapshot>)
    ensures Tell(h, a + b) == Tell(Tell(h, a), b)
    decreases |a|
  {
    if a == [] {
      assert a + b == b;
    } else {
      assert (a + b)[1..] == a[1..] + b;
      ToldTwice(C.Then(h, a[0]), a[1..], b);
    }
  }

  lemma RejectSays(s: Sys, id: nat, f: Fault)
    ensures Reject(s, id, f).told == C.Then(s.told, Rejection(id, f))
    ensures Reject(s, id, f).terminal == Some(Dismissal(id, f)) && Reject(s, id, f).prep == s.prep
    ensures s.changingGroup.None? ==> Reject(s, id, f).terminalGroup == s.terminalGroup
  {
  }

  lemma NotifySays(s: Sys)
    ensures Notify(s).told == if Due(s) then C.Then(s.told, s.terminal.value) else s.told
  {
  }

  // A rejection whose notification has nothing to wait for.
  lemma RejectThenNotify(s: Sys, id: nat, f: Fault)
    requires s.changingGroup.None? && s.terminalGroup.None? && s.prep.None?
    ensures Notify(Reject(s, id, f)).told == Tell(s.told, [Rejection(id, f), Dismissal(id, f)])
  {
    hide Reject;
    RejectSays(s, id, f);
    NotifySays(Reject(s, id, f));
    assert [Rejection(id, f), Dismissal(id, f)] == [Rejection(id, f)] + [Dismissal(id, f)];
    ToldTwice(s.told, [Rejection(id, f)], [Dismissal(id, f)]);
    ToldOne(s.told, Rejection(id, f));
    ToldOne(Tell(s.told, [Rejection(id, f)]), Dismissal(id, f));
  }

  lemma DrainSays(s: Sys, id: nat, generation: Option<nat>, closing: Option<Fault>)
    requires id in s.outputs
    ensures DrainOutput(s, id, generation, closing).told == Tell(s.told, SaidOfDrain(id, s.outputs[id], closing))
  {
    ToldNothing(s.told);
    ToldOne(s.told, Snapshot(id, Draining, Drain, s.outputs[id].error));
    hide Tell;
  }

  lemma BeginSays(s: Sys, id: nat, r: BeginReading)
    requires s.changingGroup.None? && s.terminalGroup.None? && s.prep.None? && s.terminal.None?
    ensures Notify(BeginPreparation(s, id, r)).told ==
            Tell(s.told,
                 if r.missing.Some? then [Rejection(id, r.missing.value), Dismissal(id, r.missing.value)]
                 else [Snapshot(id, Preparing, Preparation, None)]
                      + if r.noWorker.None? then []
                        else [Rejection(id, r.noWorker.value), Dismissal(id, r.noWorker.value)])
  {
    hide Reject, Notify, Available, Tell;
    var first := Snapshot(id, Preparing, Preparation, None);
    ToldOne(s.told, first);
    if r.missing.Some? {
      RejectThenNotify(s, id, r.missing.value);
    } else if r.noWorker.Some? {
      var t := Begun(s, id, r).(prep := None);
      RejectThenNotify(t, id, r.noWorker.value);
      ToldTwice(s.told, [first], [Rejection(id, r.noWorker.value), Dismissal(id, r.noWorker.value)]);
    } else {
      NotifySays(Begun(s, id, r));
      assert [first] + [] == [first];
    }
  }

  lemma TakeSays(s: Sys, r: TakeReading)
    requires Slot(s)
    ensures Take(s, r).told == Tell(s.told, SaidOfTake(s, r))
  {
    if CanTake(s) {
      var change := s.ctl.pending.value;
      var t := Taken(s);
      hide BeginPreparation, Notify, Reject, DrainOutput, Tell;
      if change.addition {
        BeginSays(t, change.id, r.begin);
      } else if change.id !in s.outputs {
        RejectThenNotify(t, change.id, Fault(NO_BRANCH, Drain));
      } else {
        DrainSays(t, change.id, r.generation, r.closing);
      }
    } else {
      ToldNothing(s.told);
    }
  }

  lemma FinishSays(s: Sys)
    requires Slot(s)
    ensures BeginFinish(s).told == Tell(s.told, Said(s, FinishStep))
  {
    var t := s.(finishing := true, ctl := C.SetEnabled(s.ctl, false));
    var (ctl, change) := C.TakeChange(t.ctl);
    hide Reject, Notify, Tell;
    if change.Some? {
      RejectThenNotify(t.(ctl := ctl), change.value.id, Fault(CANCELLED, Publication));
    } else {
      NotifySays(t);
      ToldNothing(s.told);
      if Due(s) { ToldOne(s.told, s.terminal.value); }
    }
  }

  lemma PlannedSays(s: Sys, r: AdmitReading)
    ensures LookAtPlanned(s, r).told == Tell(s.told, Said(s, Planned(r)))
  {
    ToldNothing(s.told);
    if s.prep.Some? && s.prep.value.exchange.stage.Planned? {
      hide Reject, Admission, Tell;
      PlannedEffect(s, r);
      var verdict := Admission(s, s.prep.value, r);
      if verdict.Failure? {
        RejectSays(Judging(s, r), s.prep.value.id, verdict.error);
        ToldOne(s.told, Rejection(s.prep.value.id, verdict.error));
      }
    }
  }

  lemma ConstructedSays(s: Sys, r: PublishReading)
    ensures LookAtConstructed(s, r).told == Tell(s.told, SaidOfCandidate(s, r))
  {
    ToldNothing(s.told);
    if s.prep.Some? && s.prep.value.exchange.stage.Constructed? {
      hide Tell, Settle, Objection, EndingFor;
      SettleSays(s, r);
      SettleEffect(s, r);
    }
  }

  lemma SettleSays(s: Sys, r: PublishReading)
    requires s.prep.Some? && s.prep.value.exchange.stage.Constructed?
    ensures Settle(s, r).told == Tell(s.told, SaidOfCandidate(s, r))
  {
    hide Tell, Reject, InsertOutput, EndingFor;
    var task := s.prep.value;
    ToldNothing(s.told);
    if task.broken.Some? || task.plan.Failure? {
      var f := if task.broken.Some? then task.broken.value else Fault(CANCELLED, Publication);
      RejectSays(s, task.id, f);
      ToldOne(s.told, Rejection(task.id, f));
    } else if Refusal(s, task, r).Some? {
      RejectSays(s, task.id, Refusal(s, task, r).value);
      ToldOne(s.told, Rejection(task.id, Refusal(s, task, r).value));
    } else if r.ending.OutputNotInserted? {
      RejectSays(JoinGroup(s, task, r), task.id, r.ending.fault);
      ToldOne(s.told, Rejection(task.id, r.ending.fault));
    } else {
      TargetRegistered(s, task, r);
      InsertSays(JoinGroup(s, task, r), task, r);
      ToldOne(s.told, Snapshot(task.id, Waiting, Runtime, None));
    }
  }

  lemma InsertSays(s: Sys, task: Task, r: PublishReading)
    requires task.plan.Success? && Target(task) in s.groups
    ensures InsertOutput(s, task, r).told ==
            if EndingFor(task, r.ending).Completed? then C.Then(s.told, Snapshot(task.id, Waiting, Runtime, None))
            else s.told
  {
    hide JoinedGroup, CandidateGraph;
  }

  lemma ExpireSays(s: Sys, elapsed: nat)
    ensures Expire(s, elapsed).told == Tell(s.told, Said(s, Budget(elapsed)))
  {
    ToldNothing(s.told);
    if s.prep.Some? { ToldOne(s.told, Rejection(s.prep.value.id, Fault(EXPIRED, Preparation))); }
    hide Tell;
  }

  lemma PollGroupSays(s: Sys, g: nat, r: GroupReading)
    requires Slot(s)
    ensures PollGroup(s, g, r).told == Tell(s.told, SaidOfGroup(s, g, r))
  {
    ToldNothing(s.told);
    if g in s.groups && s.groups[g].outputCount == 0 {
      hide Tell, Polled, EraseGroup;
      var u := s.(unpolled := s.unpolled - {g});
      var t := if s.groups[g].branch.fault.Some? then FailMembers(u, g) else u;
      var group := Polled(s.groups[g], r).0;
      EraseSays(t, g, group);
      if Amends(s, g, r) { ToldOne(s.told, Rejection(s.terminal.value.id, group.branch.fault.value)); }
    }
  }

  lemma EraseSays(s: Sys, g: nat, group: Group)
    ensures EraseGroup(s, g, group).told ==
            if s.terminalGroup == Some(g) && s.terminal.Some? && s.terminal.value.error.None?
               && group.branch.fault.Some?
            then C.Then(s.told, Rejection(s.terminal.value.id, group.branch.fault.value)) else s.told
  {
  }

  lemma PromoteSays(s: Sys, id: nat, r: OutputReading)
    requires id in s.outputs
    ensures var t := Promote(s, id, r);
            && t.told == Tell(s.told, if BecomesRunning(s, PollOutputStep(id, r), id)
                                      then [SnapshotOf(id, Promoted(s.outputs[id]))] else [])
            && t.changing == if BecomesRunning(s, PollOutputStep(id, r), id) && s.changing == Some(id) then None
                             else s.changing
  {
    ToldNothing(s.told);
    ToldOne(s.told, SnapshotOf(id, Promoted(s.outputs[id])));
    hide Tell;
  }

  lemma NoteSays(s: Sys, id: nat)
    requires id in s.outputs
    ensures NoteFailure(s, id).told ==
            Tell(s.told, if Shown(s.outputs[id]).state.Failed? && !s.outputs[id].state.Failed?
                         then [SnapshotOf(id, Shown(s.outputs[id]))] else [])
  {
    ToldNothing(s.told);
    ToldOne(s.told, SnapshotOf(id, Shown(s.outputs[id])));
    hide Tell;
  }

  lemma ExamineSays(s: Sys, id: nat, r: OutputReading)
    requires id in s.outputs
    ensures var t := Examine(s, id, r).0;
            && t.told == Tell(s.told,
                 (if BecomesRunning(s, PollOutputStep(id, r), id)
                  then [SnapshotOf(id, Promoted(s.outputs[id]))] else [])
                 + (if Looked(s, id, r).state.Failed? && !s.outputs[id].state.Failed?
                    then [SnapshotOf(id, Looked(s, id, r))] else []))
            && t.changing == if BecomesRunning(s, PollOutputStep(id, r), id) && s.changing == Some(id) then None
                             else s.changing
  {
    assert Started(s, id, r).state.Failed? <==> s.outputs[id].state.Failed?;
    hide Tell, B.Poll, B.Fail, NoteFailure, Promote, BecomesRunning;
    PromoteSays(s, id, r);
    PromoteLooks(s, id, r);
    var a := Promote(s, id, r);
    var c := PollBranch(FailOverdue(a, id, r), id, r).0;
    NoteSays(c, id);
    NoteIsQuiet(c, id);
    NoteShows(c, id);
    ExamineLooks(s, id, r);
    assert Shown(c.outputs[id]) == Looked(s, id, r) && c.told == a.told;
    assert c.outputs[id].state == Started(s, id, r).state;
    ToldTwice(s.told,
              if BecomesRunning(s, PollOutputStep(id, r), id) then [SnapshotOf(id, Promoted(s.outputs[id]))] else [],
              if Looked(s, id, r).state.Failed? && !s.outputs[id].state.Failed?
              then [SnapshotOf(id, Looked(s, id, r))] else []);
  }

  lemma RetireSays(s: Sys, id: nat)
    requires id in s.outputs
    ensures Retire(s, id).told ==
            var g := s.outputs[id].groupId;
            if s.changing == Some(id) && ((g in s.groups && s.groups[g].outputCount <= 1)
                                          || (s.prep.Some? && s.prep.value.id == id)) then s.told
            else C.Then(s.told, SnapshotOf(id, s.outputs[id].(state := Retired)))
  {
  }

  lemma PollOutputSays(s: Sys, id: nat, r: OutputReading)
    requires id in s.outputs && s.unpolled == {}
    ensures PollOutput(s, id, r).told == Tell(s.told, SaidOfOutput(s, id, r))
  {
    hide Tell, Examine, Retire, Looked, Retires, BecomesRunning;
    ExamineSays(s, id, r);
    ExamineLooks(s, id, r);
    ExamineIsQuiet(s, id, r);
    var (t, retired) := Examine(s, id, r);
    var front :=
      (if BecomesRunning(s, PollOutputStep(id, r), id) then [SnapshotOf(id, Promoted(s.outputs[id]))] else [])
      + (if Looked(s, id, r).state.Failed? && !s.outputs[id].state.Failed?
         then [SnapshotOf(id, Looked(s, id, r))] else []);
    var last := SnapshotOf(id, Looked(s, id, r).(state := Retired));
    LookedKeepsGroup(s, id, r);
    RetireSays(t, id);
    ToldTwice(s.told, front, [last]);
    ToldOne(t.told, last);
    assert front + [] == front;
  }

  lemma LookedKeepsGroup(s: Sys, id: nat, r: OutputReading)
    requires id in s.outputs
    ensures Looked(s, id, r).groupId == s.outputs[id].groupId
  {
  }

  /** What the observer is told in a step is exactly what is stated. */
  lemma StepSays(s: Sys, step: Step)
    requires Valid(s)
    ensures Apply(s, step).told == Tell(s.told, Said(s, step))
  {
    SlotOf(s);
    hide Valid, Slot, Tell, Apply, Said;
    match step
    case PollOutputStep(id, r) => OutputStepSays(s, step);
    case FinishOutputStep(_, _, _, _) => FinishOutputSays(s, step);
    case TakeStep(_) => CommandSays(s, step);
    case FinishStep => CommandSays(s, step);
    case Planned(_) => PreparationSays(s, step);
    case Constructed(_) => PreparationSays(s, step);
    case Budget(_) => PreparationSays(s, step);
    case NotifyStep => CommandSays(s, step);
    case PollGroupStep(_, _) => CommandSays(s, step);
    case _ => OthersSayNothing(s, step);
  }

  lemma CommandSays(s: Sys, step: Step)
    requires Slot(s) && (step.TakeStep? || step.FinishStep? || step.NotifyStep? || step.PollGroupStep?)
    ensures Apply(s, step).told == Tell(s.told, Said(s, step))
  {
    hide Slot, Tell, Take, BeginFinish, PollGroup, Notify, SaidOfTake, SaidOfGroup;
    ToldNothing(s.told);
    match step
    case TakeStep(r) => TakeSays(s, r);
    case FinishStep => FinishSays(s);
    case PollGroupStep(g, r) => PollGroupSays(s, g, r);
    case NotifyStep =>
      NotifySays(s);
      if Due(s) { ToldOne(s.told, s.terminal.value); }
  }

  lemma PreparationSays(s: Sys, step: Step)
    requires step.Planned? || step.Constructed? || step.Budget?
    ensures Apply(s, step).told == Tell(s.told, Said(s, step))
  {
    hide Tell, LookAtPlanned, LookAtConstructed, Expire, SaidOfCandidate, Admission;
    match step
    case Planned(r) => PlannedSays(s, r);
    case Constructed(r) => ConstructedSays(s, r);
    case Budget(elapsed) => ExpireSays(s, elapsed);
  }

  lemma OutputStepSays(s: Sys, step: Step)
    requires step.PollOutputStep?
    ensures Apply(s, step).told == Tell(s.told, Said(s, step))
  {
    hide Tell, PollOutput, SaidOfOutput;
    ToldNothing(s.told);
    if step.id in s.outputs && s.unpolled == {} {
      PollOutputSays(s, step.id, step.outputReading);
    } else {
      PollIsSkipped(s, step.id, step.outputReading);
    }
  }

  lemma OthersSayNothing(s: Sys, step: Step)
    requires Foreign(step) || step.Collect?
    ensures Apply(s, step).told == Tell(s.told, Said(s, step))
  {
    hide Tell, WorkerTurn;
    ToldNothing(s.told);
    if step.Work? { WorkerEffect(s, step.work); }
  }

  lemma PollIsSkipped(s: Sys, id: nat, r: OutputReading)
    requires id !in s.outputs || s.unpolled != {}
    ensures PollOutput(s, id, r) == s
  {
  }

  lemma FinishOutputSays(s: Sys, step: Step)
    requires step.FinishOutputStep?
    ensures Apply(s, step).told == Tell(s.told, Said(s, step))
  {
    hide Tell, DrainOutput;
    ToldNothing(s.told);
    if step.id in s.outputs { DrainSays(s, step.id, step.generation, step.closing); }
  }

  // ---- Proof: the deferred notification ----

  lemma RetireNotice(s: Sys, id: nat)
    requires id in s.outputs
    ensures var t, g := Retire(s, id), s.outputs[id].groupId;
            var last := g in s.groups && s.groups[g].outputCount <= 1;
            if s.changing == Some(id) && (last || (s.prep.Some? && s.prep.value.id == id)) then
              && t.terminal == Some(SnapshotOf(id, s.outputs[id].(state := Retired)))
              && t.terminalGroup == if last then Some(g) else s.terminalGroup
            else t.terminal == s.terminal && t.terminalGroup == s.terminalGroup
  {
  }

  /** The retirement of an output is told, or deferred, with what the output had to report. */
  lemma GoneIsNotified(s: Sys, id: nat, r: OutputReading)
    requires id in s.outputs && s.unpolled == {} && Retires(s, id, r)
    ensures var t, g := Apply(s, PollOutputStep(id, r)), s.outputs[id].groupId;
            var last := g in s.groups && s.groups[g].outputCount <= 1;
            if Defers(s, id, r) then
              && t.terminal == Some(SnapshotOf(id, Looked(s, id, r).(state := Retired)))
              && t.terminalGroup == if last then Some(g) else s.terminalGroup
            else t.terminal == s.terminal && t.terminalGroup == s.terminalGroup
  {
    hide Examine, Retire, Looked, Retires, BecomesRunning;
    ExamineLooks(s, id, r);
    ExamineSays(s, id, r);
    ExamineIsQuiet(s, id, r);
    LookedKeepsGroup(s, id, r);
    RetireNotice(Examine(s, id, r).0, id);
  }

  // The notification after a poll of the group it waits for.
  function Noticed(s: Sys, step: Step): Option<Snapshot> {
    if step.PollGroupStep? && Amends(s, step.group, step.groupReading) then
      var f := Polled(s.groups[step.group], step.groupReading).0.branch.fault.value;
      Some(s.terminal.value.(error := Some(f.error), stage := f.stage))
    else s.terminal
  }

  lemma EraseNotice(s: Sys, g: nat, group: Group)
    requires s.terminal.Some?
    ensures var t := EraseGroup(s, g, group);
            && t.terminalGroup == s.terminalGroup
            && t.terminal ==
               if s.terminalGroup == Some(g) && s.terminal.value.error.None? && group.branch.fault.Some?
               then Some(s.terminal.value.(error := Some(group.branch.fault.value.error),
                                           stage := group.branch.fault.value.stage))
               else s.terminal
  {
  }

  lemma PollGroupNotice(s: Sys, g: nat, r: GroupReading)
    requires s.terminal.Some?
    ensures PollGroup(s, g, r).terminal == Noticed(s, PollGroupStep(g, r))
    ensures PollGroup(s, g, r).terminalGroup == s.terminalGroup
  {
    if g in s.groups && s.groups[g].outputCount == 0 {
      hide Polled, EraseGroup;
      var u := s.(unpolled := s.unpolled - {g});
      EraseNotice(if s.groups[g].branch.fault.Some? then FailMembers(u, g) else u, g, Polled(s.groups[g], r).0);
    }
  }

  lemma PollOutputNotice(s: Sys, id: nat, r: OutputReading)
    requires Slot(s) && s.terminal.Some?
    ensures var t := PollOutput(s, id, r); t.terminal == s.terminal && t.terminalGroup == s.terminalGroup
  {
    if id in s.outputs && s.unpolled == {} {
      hide Examine, Retire, Looked, Retires, BecomesRunning;
      ExamineIsQuiet(s, id, r);
      ExamineSays(s, id, r);
      RetireNotice(Examine(s, id, r).0, id);
    }
  }

  lemma NotifyNotice(s: Sys)
    requires s.terminal.Some?
    ensures var t := Notify(s);
            if Due(s) then t.terminal.None? else t.terminal == s.terminal && t.terminalGroup == s.terminalGroup
  {
  }

  /** A deferred notification stays as it is, gains the failure of the group it waits for, or is sent. */
  lemma NoticeMoves(s: Sys, step: Step)
    requires Valid(s) && s.terminal.Some?
    ensures var t := Apply(s, step);
            if Due(s) && (step.NotifyStep? || step.FinishStep?) then
              t.terminal.None? && t.told == C.Then(s.told, s.terminal.value)
            else t.terminal == Noticed(s, step) && t.terminalGroup == s.terminalGroup
  {
    SlotOf(s);
    hide Valid, Apply, Noticed, Due;
    match step
    case TakeStep(_) => JudgedNotice(s, step);
    case Planned(_) => JudgedNotice(s, step);
    case Constructed(_) => JudgedNotice(s, step);
    case PollGroupStep(_, _) => PolledNotice(s, step);
    case PollOutputStep(_, _) => PolledNotice(s, step);
    case NotifyStep => SentNotice(s, step);
    case FinishStep => SentNotice(s, step);
    case _ => OtherNotice(s, step);
  }

  lemma JudgedNotice(s: Sys, step: Step)
    requires Slot(s) && s.terminal.Some? && (step.TakeStep? || step.Planned? || step.Constructed?)
    ensures Apply(s, step).terminal == Noticed(s, step) && Apply(s, step).terminalGroup == s.terminalGroup
  {
    hide Apply;
    NothingToJudge(s, step);
  }

  lemma PolledNotice(s: Sys, step: Step)
    requires Slot(s) && s.terminal.Some? && (step.PollGroupStep? || step.PollOutputStep?)
    ensures Apply(s, step).terminal == Noticed(s, step) && Apply(s, step).terminalGroup == s.terminalGroup
  {
    hide PollGroup, PollOutput, Polled;
    if step.PollGroupStep? {
      PollGroupNotice(s, step.group, step.groupReading);
    } else {
      PollOutputNotice(s, step.id, step.outputReading);
    }
  }

  lemma SentNotice(s: Sys, step: Step)
    requires Slot(s) && s.terminal.Some? && (step.NotifyStep? || step.FinishStep?)
    ensures var t := Apply(s, step);
            if Due(s) then t.terminal.None? && t.told == C.Then(s.told, s.terminal.value)
            else t.terminal == Noticed(s, step) && t.terminalGroup == s.terminalGroup
  {
    hide Notify, BeginFinish;
    if step.NotifyStep? {
      NotifyNotice(s);
      NotifySays(s);
    } else {
      FinishNotice(s);
    }
  }

  lemma OtherNotice(s: Sys, step: Step)
    requires Foreign(step) || step.Collect? || step.Budget? || step.FinishOutputStep?
    ensures Apply(s, step).terminal == Noticed(s, step) && Apply(s, step).terminalGroup == s.terminalGroup
  {
    hide FinishOutput, Expire, WorkerTurn;
    match step
    case FinishOutputStep(id, cause, generation, closing) => FinishOutputNotice(s, id, cause, generation, closing);
    case Budget(elapsed) => ExpireNotice(s, elapsed);
    case Work(r) => WorkerEffect(s, r);
    case _ =>
  }

  lemma FinishNotice(s: Sys)
    requires Slot(s) && s.terminal.Some?
    ensures var t := BeginFinish(s);
            if Due(s) then t.terminal.None? && t.told == C.Then(s.told, s.terminal.value)
            else t.terminal == s.terminal && t.terminalGroup == s.terminalGroup
  {
    hide Notify;
    var t := s.(finishing := true, ctl := C.SetEnabled(s.ctl, false));
    NotifyNotice(t);
    NotifySays(t);
  }

  lemma FinishOutputNotice(s: Sys, id: nat, cause: Option<Fault>, generation: Option<nat>, closing: Option<Fault>)
    ensures var t := FinishOutput(s, id, cause, generation, closing);
            t.terminal == s.terminal && t.terminalGroup == s.terminalGroup
  {
  }

  lemma ExpireNotice(s: Sys, elapsed: nat)
    ensures var t := Expire(s, elapsed); t.terminal == s.terminal && t.terminalGroup == s.terminalGroup
  {
  }

  // ---- Whom it concerns ----

  // The step can say something of this output: it is polled or stopped, pending, prepared or notified.
  predicate Concerns(s: Sys, step: Step, id: nat) {
    || (s.ctl.pending.Some? && s.ctl.pending.value.id == id)
    || (s.prep.Some? && s.prep.value.id == id)
    || (s.terminal.Some? && s.terminal.value.id == id)
    || (step.PollOutputStep? && step.id == id && id in s.outputs && s.unpolled == {})
    || (step.FinishOutputStep? && step.id == id && id in s.outputs)
  }

  lemma SaidConcerns(s: Sys, step: Step, i: nat)
    requires i < |Said(s, step)|
    ensures Concerns(s, step, Said(s, step)[i].id)
    ensures Said(s, step)[i].state.Running? ==>
              step.PollOutputStep? || (s.terminal.Some? && Said(s, step)[i] == s.terminal.value)
  {
    hide Admission, Refusal, Polled, Looked, Retires, Defers, BecomesRunning, SaidOfTake, SaidOfCandidate, SaidOfGroup,
         SaidOfOutput;
    match step
    case TakeStep(r) => TakeConcerns(s, r, i);
    case Constructed(r) => CandidateConcerns(s, r, i);
    case PollGroupStep(g, r) => GroupConcerns(s, g, r, i);
    case PollOutputStep(id, r) => OutputConcerns(s, id, r, i);
    case _ =>
  }

  lemma TakeConcerns(s: Sys, r: TakeReading, i: nat)
    requires i < |SaidOfTake(s, r)|
    ensures CanTake(s) && SaidOfTake(s, r)[i].id == s.ctl.pending.value.id && !SaidOfTake(s, r)[i].state.Running?
  {
  }

  lemma CandidateConcerns(s: Sys, r: PublishReading, i: nat)
    requires i < |SaidOfCandidate(s, r)|
    ensures s.prep.Some? && SaidOfCandidate(s, r)[i].id == s.prep.value.id && !SaidOfCandidate(s, r)[i].state.Running?
  {
    hide Refusal;
  }

  lemma GroupConcerns(s: Sys, g: nat, r: GroupReading, i: nat)
    requires i < |SaidOfGroup(s, g, r)|
    ensures s.terminal.Some? && SaidOfGroup(s, g, r)[i].id == s.terminal.value.id
            && SaidOfGroup(s, g, r)[i].state.Failed?
  {
    hide Polled;
  }

  lemma OutputConcerns(s: Sys, id: nat, r: OutputReading, i: nat)
    requires id in s.outputs && i < |SaidOfOutput(s, id, r)|
    ensures SaidOfOutput(s, id, r)[i].id == id
  {
    hide Looked, Retires, Defers, BecomesRunning;
  }
}
