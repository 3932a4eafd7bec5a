/** What an output reports as its error, over whole runs. */
module ControllerReports {
  import opened Wrappers
  import opened OutputTypes
  import opened ControllerModel
  import opened ControllerEffects
  import B = RuntimeBranch
  import C = ControlModel

  // The error is the branch's first failure, and a Failed output has one.
  predicate Attributed(o: Output) {
    && (o.error.Some? ==> o.branch.fault.Some? && o.error.value == o.branch.fault.value.error)
    && (o.state.Failed? ==> o.error.Some?)
  }

  ghost predicate AllAttributed(outputs: map<nat, Output>) {
    forall id :: id in outputs ==> Attributed(outputs[id])
  }

  // p is o with another branch further on, and reports the same.
  predicate ReportsSame(o: Output, p: Output) {
    B.Ahead(o.branch, p.branch) && p.error == o.error && (p.state.Failed? ==> o.state.Failed?)
  }

  ghost predicate AllReportSame(s: Sys, t: Sys) {
    forall id :: id in t.outputs ==> id in s.outputs && ReportsSame(s.outputs[id], t.outputs[id])
  }

  lemma SameReportsStayAttributed(s: Sys, t: Sys)
    requires AllAttributed(s.outputs) && AllReportSame(s, t)
    ensures AllAttributed(t.outputs)
  {
    forall id | id in t.outputs ensures Attributed(t.outputs[id]) {
      assert Attributed(s.outputs[id]) && ReportsSame(s.outputs[id], t.outputs[id]);
    }
  }

  lemma DrainReportsSame(s: Sys, id: nat, generation: Option<nat>, closing: Option<Fault>)
    requires id in s.outputs
    ensures AllReportSame(s, DrainOutput(s, id, generation, closing))
  {
  }

  lemma TakeReportsSame(s: Sys, r: TakeReading)
    ensures AllReportSame(s, Take(s, r))
  {
    if CanTake(s) {
      hide DrainOutput, BeginPreparation, Notify, Reject;
      var change := C.TakeChange(s.ctl).1.value;
      var t := Taken(s);
      if change.addition {
        BeginIsQuiet(t, change.id, r.begin);
        NotifyIsQuiet(BeginPreparation(t, change.id, r.begin));
      } else if change.id !in s.outputs {
        RejectIsQuiet(t, change.id, Fault(NO_BRANCH, Drain));
        NotifyIsQuiet(Reject(t, change.id, Fault(NO_BRANCH, Drain)));
      } else {
        DrainReportsSame(t, change.id, r.generation, r.closing);
      }
    }
  }

  lemma BranchStepReportsSame(s: Sys, step: Step)
    requires step.OutputFails? || step.GroupFails? || step.Count?
    ensures AllReportSame(s, Apply(s, step))
  {
  }

  lemma FinishOutputReportsSame(s: Sys, id: nat, cause: Option<Fault>, generation: Option<nat>, closing: Option<Fault>)
    ensures AllReportSame(s, FinishOutput(s, id, cause, generation, closing))
  {
    if id in s.outputs { DrainReportsSame(s, id, generation, closing); }
  }

  lemma CalmReportsSame(s: Sys, step: Step)
    requires Calm(step)
    ensures AllReportSame(s, Apply(s, step))
  {
    hide Take, LookAtPlanned, BeginFinish, Expire, Notify, WorkerTurn, FinishOutput;
    match step
    case TakeStep(r) => TakeReportsSame(s, r);
    case Planned(r) => PlannedIsQuiet(s, r);
    case FinishStep => FinishIsQuiet(s);
    case Budget(elapsed) => ExpireIsQuiet(s, elapsed);
    case NotifyStep => NotifyIsQuiet(s);
    case Work(r) => WorkerEffect(s, r);
    case OutputFails(_, _) => BranchStepReportsSame(s, step);
    case GroupFails(_, _, _) => BranchStepReportsSame(s, step);
    case Count(_, _, _) => BranchStepReportsSame(s, step);
    case FinishOutputStep(id, cause, generation, closing) => FinishOutputReportsSame(s, id, cause, generation, closing);
    case _ =>
  }

  lemma PollGroupReportsSame(s: Sys, g: nat, r: GroupReading)
    ensures AllReportSame(s, PollGroup(s, g, r))
  {
    if g in s.groups && s.groups[g].outputCount == 0 {
      var u := s.(unpolled := s.unpolled - {g});
      PollUnusedEffect(if s.groups[g].branch.fault.Some? then FailMembers(u, g) else u, g, r);
    }
  }

  lemma PromoteReportsSame(s: Sys, id: nat, r: OutputReading)
    requires id in s.outputs
    ensures AllReportSame(s, Promote(s, id, r)) && id in Promote(s, id, r).outputs
  {
  }

  lemma LookReportsSame(s: Sys, id: nat, r: OutputReading)
    requires id in s.outputs
    ensures var t := PollBranch(FailOverdue(s, id, r), id, r).0; AllReportSame(s, t) && id in t.outputs
  {
  }

  lemma NoteKeepsAttributed(s: Sys, id: nat)
    requires AllAttributed(s.outputs) && id in s.outputs
    ensures AllAttributed(NoteFailure(s, id).outputs)
  {
  }

  lemma PollOutputKeepsAttributed(s: Sys, id: nat, r: OutputReading)
    requires AllAttributed(s.outputs)
    ensures AllAttributed(PollOutput(s, id, r).outputs)
  {
    if id in s.outputs && s.unpolled == {} {
      PromoteReportsSame(s, id, r);
      var a := Promote(s, id, r);
      SameReportsStayAttributed(s, a);
      LookReportsSame(a, id, r);
      var b := PollBranch(FailOverdue(a, id, r), id, r).0;
      SameReportsStayAttributed(a, b);
      NoteKeepsAttributed(b, id);
      ExamineIsQuiet(s, id, r);
      RetireEffect(Examine(s, id, r).0, id);
    }
  }

  lemma ConstructedKeepsAttributed(s: Sys, r: PublishReading)
    requires AllAttributed(s.outputs)
    ensures AllAttributed(LookAtConstructed(s, r).outputs)
  {
    hide Settle, NewOutput;
    if s.prep.Some? {
      SettleOutputs(s, r);
      if s.prep.value.plan.Success? { NewOutputWaits(s.prep.value, r); }
    }
  }

  lemma StepKeepsAttributed(s: Sys, step: Step)
    requires AllAttributed(s.outputs)
    ensures AllAttributed(Apply(s, step).outputs)
  {
    hide PollOutput, LookAtConstructed, PollGroup;
    if Calm(step) {
      CalmReportsSame(s, step);
      SameReportsStayAttributed(s, Apply(s, step));
    } else if step.Constructed? {
      ConstructedKeepsAttributed(s, step.publish);
    } else if step.PollGroupStep? {
      PollGroupReportsSame(s, step.group, step.groupReading);
      SameReportsStayAttributed(s, Apply(s, step));
    } else {
      PollOutputKeepsAttributed(s, step.id, step.outputReading);
    }
  }

  /** In every run the error an output reports is the first failure its branch ever recorded, and a
      Failed output reports one. */
  lemma {:induction false} ErrorIsFirstFailure(s: Sys, steps: seq<Step>)
    requires AllAttributed(s.outputs)
    ensures AllAttributed(Run(s, steps).outputs)
    decreases |steps|
  {
    if steps != [] {
      StepKeepsAttributed(s, steps[0]);
      ErrorIsFirstFailure(Apply(s, steps[0]), steps[1..]);
    }
  }

  // ---- The failure finish() returns ----

  // The failure a step comes upon: an output that turns Failed, or a failed group that is erased.
  function Noted(s: Sys, step: Step): Option<Error> {
    match step
    case PollOutputStep(id, r) =>
      if id !in s.outputs || s.unpolled != {} || s.outputs[id].state.Failed? then None
      else
        var outputs := Examine(s, id, r).0.outputs;
        if id in outputs && outputs[id].state.Failed? then outputs[id].error else None
    case PollGroupStep(g, r) =>
      if g !in s.groups || s.groups[g].outputCount != 0 then None
      else
        var (group, retired) := Polled(s.groups[g], r);
        if retired && group.branch.fault.Some? then Some(group.branch.fault.value.error) else None
    case _ => None
  }

  // The failure after a step: the one kept so far, or the one the step comes upon while finishing.
  predicate Keeps(s: Sys, t: Sys, noted: Option<Error>) {
    t.failure == if s.failure.Some? || !s.finishing then s.failure else noted
  }

  lemma NoteKeepsFirst(s: Sys, id: nat)
    requires id in s.outputs
    ensures var t := NoteFailure(s, id);
            && id in t.outputs && t.finishing == s.finishing
            && Keeps(s, t, if t.outputs[id].state.Failed? && !s.outputs[id].state.Failed?
                           then t.outputs[id].error else None)
            && (s.outputs[id].state.Failed? ==> t.outputs[id].state.Failed?)
  {
  }

  lemma LookKeepsFailure(s: Sys, id: nat, r: OutputReading)
    requires id in s.outputs
    ensures var t := PollBranch(FailOverdue(Promote(s, id, r), id, r), id, r).0;
            && id in t.outputs && t.failure == s.failure && t.finishing == s.finishing
            && (t.outputs[id].state.Failed? <==> s.outputs[id].state.Failed?)
  {
    hide Promote;
    PromoteShape(s, id, r);
  }

  lemma RetireKeepsFailure(s: Sys, id: nat)
    requires id in s.outputs
    ensures Retire(s, id).failure == s.failure
  {
  }

  lemma PollOutputNotes(s: Sys, id: nat, r: OutputReading)
    ensures Keeps(s, PollOutput(s, id, r), Noted(s, PollOutputStep(id, r)))
  {
    if id in s.outputs && s.unpolled == {} {
      hide Promote, FailOverdue, PollBranch, NoteFailure, Retire;
      LookKeepsFailure(s, id, r);
      var c := PollBranch(FailOverdue(Promote(s, id, r), id, r), id, r).0;
      NoteKeepsFirst(c, id);
      RetireKeepsFailure(NoteFailure(c, id), id);
    }
  }

  lemma EraseNotes(s: Sys, g: nat, group: Group)
    ensures var fault := group.branch.fault;
            Keeps(s, EraseGroup(s, g, group), if fault.Some? then Some(fault.value.error) else None)
  {
  }

  lemma PollGroupNotes(s: Sys, g: nat, r: GroupReading)
    ensures Keeps(s, PollGroup(s, g, r), Noted(s, PollGroupStep(g, r)))
  {
    if g in s.groups && s.groups[g].outputCount == 0 {
      hide EraseGroup, Polled;
      var u := s.(unpolled := s.unpolled - {g});
      EraseNotes(if s.groups[g].branch.fault.Some? then FailMembers(u, g) else u, g, Polled(s.groups[g], r).0);
    }
  }

  lemma RejectKeepsFailure(s: Sys, id: nat, f: Fault)
    ensures Reject(s, id, f).failure == s.failure
  {
  }

  lemma TakeKeepsFailure(s: Sys, r: TakeReading)
    ensures Take(s, r).failure == s.failure
  {
    if CanTake(s) {
      hide Reject;
      var change := C.TakeChange(s.ctl).1.value;
      var t := Taken(s);
      RejectKeepsFailure(t, change.id, Fault(NO_BRANCH, Drain));
      if r.begin.missing.Some? {
        RejectKeepsFailure(t, change.id, r.begin.missing.value);
      } else if r.begin.noWorker.Some? {
        RejectKeepsFailure(Begun(t, change.id, r.begin).(prep := None), change.id, r.begin.noWorker.value);
      }
    }
  }

  lemma FinishKeepsFailure(s: Sys)
    ensures BeginFinish(s).failure == s.failure
  {
    hide Reject;
    var t := s.(finishing := true, ctl := C.SetEnabled(s.ctl, false));
    var (ctl, change) := C.TakeChange(t.ctl);
    if change.Some? { RejectKeepsFailure(t.(ctl := ctl), change.value.id, Fault(CANCELLED, Publication)); }
  }

  lemma PlannedKeepsFailure(s: Sys, r: AdmitReading)
    ensures LookAtPlanned(s, r).failure == s.failure
  {
    if s.prep.Some? && s.prep.value.exchange.stage.Planned? {
      hide Reject, Admission, TakesGroupId;
      var verdict := Admission(s, s.prep.value, r);
      if verdict.Failure? { RejectKeepsFailure(Judging(s, r), s.prep.value.id, verdict.error); }
    }
  }

  lemma ConstructedKeepsFailure(s: Sys, r: PublishReading)
    ensures LookAtConstructed(s, r).failure == s.failure
  {
    if s.prep.Some? && s.prep.value.exchange.stage.Constructed? {
      hide Reject;
      var task := s.prep.value;
      if task.broken.Some? || task.plan.Failure? {
        RejectKeepsFailure(s, task.id, if task.broken.Some? then task.broken.value else Fault(CANCELLED, Publication));
      } else if Refusal(s, task, r).Some? {
        RejectKeepsFailure(s, task.id, Refusal(s, task, r).value);
      } else if r.ending.OutputNotInserted? {
        RejectKeepsFailure(JoinGroup(s, task, r), task.id, r.ending.fault);
      }
    }
  }

  lemma StepNotes(s: Sys, step: Step)
    ensures Keeps(s, Apply(s, step), Noted(s, step))
  {
    hide PollOutput, PollGroup, Take, BeginFinish, LookAtPlanned, LookAtConstructed, Examine, Polled;
    match step
    case PollOutputStep(id, r) => PollOutputNotes(s, id, r);
    case PollGroupStep(g, r) => PollGroupNotes(s, g, r);
    case TakeStep(r) => TakeKeepsFailure(s, r);
    case FinishStep => FinishKeepsFailure(s);
    case Planned(r) => PlannedKeepsFailure(s, r);
    case Constructed(r) => ConstructedKeepsFailure(s, r);
    case _ =>
  }

  // The first failure the run comes upon while finishing.
  function FirstNoted(s: Sys, steps: seq<Step>): Option<Error>
    decreases |steps|
  {
    if steps == [] then None
    else if s.finishing && Noted(s, steps[0]).Some? then Noted(s, steps[0])
    else FirstNoted(Apply(s, steps[0]), steps[1..])
  }

  /** Over whole runs the failure to be returned, once set, never changes, and is the first one the run
      came upon while finishing: none exactly if there was none. */
  lemma {:induction false} RunNotesFirst(s: Sys, steps: seq<Step>)
    ensures Run(s, steps).failure == if s.failure.Some? then s.failure else FirstNoted(s, steps)
    decreases |steps|
  {
    if steps != [] {
      hide Apply, Noted;
      StepNotes(s, steps[0]);
      RunNotesFirst(Apply(s, steps[0]), steps[1..]);
    }
  }
}
