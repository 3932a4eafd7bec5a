/** Every step keeps the busy-slot invariant. */
module ControllerSlot {
  import opened Wrappers
  import opened OutputTypes
  import opened ControllerModel
  import opened ControllerInvariant
  import opened ControllerEffects
  import C = ControlModel
  import X = PreparationExchange

  // The slot is taken for id and nothing has been decided about it yet.
  ghost predicate Undecided(s: Sys, id: nat) {
    && s.ctl.inProgress && s.changing == Some(id) && s.ctl.pending.None?
    && s.terminal.None? && s.terminalGroup.None? && id !in s.outputs
    && (s.prep.Some? ==>
          s.prep.value.id == id && X.Valid(s.prep.value.exchange)
          && (s.prep.value.exchange.construct ==> s.prep.value.plan.Success?))
  }

  lemma RejectDecides(s: Sys, id: nat, f: Fault)
    requires Undecided(s, id)
    ensures var t := Reject(s, id, f);
            && t.terminal == Some(Snapshot(id, Retired, f.stage, Some(f.error)))
            && t.prep == s.prep && t.changing == s.changing && t.outputs == s.outputs
            && t.ctl == C.Publish(s.ctl, Snapshot(id, Failed, f.stage, Some(f.error)))
            && t.changingGroup.None?
            && (s.prep.None? ==> Slot(t))
            && (s.prep.Some? ==> Slot(ReleaseWorker(t)))
  {
  }

  lemma NotifyKeepsSlot(s: Sys)
    requires Slot(s)
    ensures Slot(Notify(s))
  {
  }

  lemma ForeignKeepsSlot(s: Sys, step: Step)
    requires Slot(s) && Foreign(step)
    ensures Slot(Apply(s, step))
  {
    hide Traffic, OutputFault, GroupFault, WorkerTurn;
    match step
    case Work(r) => WorkKeepsSlot(s, r);
    case OutputFails(_, _) => BranchStepKeepsSlot(s, step);
    case GroupFails(_, _, _) => BranchStepKeepsSlot(s, step);
    case Count(_, _, _) => BranchStepKeepsSlot(s, step);
    case _ =>
  }

  lemma BranchStepKeepsSlot(s: Sys, step: Step)
    requires Slot(s) && (step.OutputFails? || step.GroupFails? || step.Count?)
    ensures Slot(Apply(s, step))
  {
    hide Apply;
    BranchStepEffect(s, step);
  }

  lemma WorkKeepsSlot(s: Sys, r: WorkerReading)
    requires Slot(s)
    ensures Slot(WorkerTurn(s, r))
  {
  }

  lemma PlannedKeepsSlot(s: Sys, r: AdmitReading)
    requires Slot(s)
    ensures Slot(LookAtPlanned(s, r))
  {
    if s.prep.Some? && s.prep.value.exchange.stage.Planned? {
      var task := s.prep.value;
      var t := s.(clock := s.clock + r.elapsed,
                  nextGroup := if TakesGroupId(s, task, r) then s.nextGroup + 1 else s.nextGroup);
      match Admission(s, task, r)
      case Failure(f) => RejectDecides(t, task.id, f);
      case Success(g) =>
    }
  }

  lemma InsertKeepsSlot(s: Sys, r: PublishReading)
    requires s.prep.Some? && s.prep.value.plan.Success? && Undecided(s, s.prep.value.id)
    requires Target(s.prep.value) in s.groups
    ensures var t := InsertOutput(s, s.prep.value, r); t.prep == s.prep && Slot(ReleaseWorker(t))
  {
  }

  lemma ConstructedKeepsSlot(s: Sys, r: PublishReading)
    requires Slot(s)
    ensures Slot(LookAtConstructed(s, r))
  {
    hide Reject, InsertOutput;
    if s.prep.Some? && s.prep.value.exchange.stage.Constructed? {
      var task := s.prep.value;
      if task.broken.Some? || task.plan.Failure? {
        RejectDecides(s, task.id, if task.broken.Some? then task.broken.value else Fault(CANCELLED, Publication));
      } else if Refusal(s, task, r).Some? {
        RejectDecides(s, task.id, Refusal(s, task, r).value);
      } else {
        var t := JoinGroup(s, task, r);
        if r.ending.OutputNotInserted? {
          RejectDecides(t, task.id, r.ending.fault);
        } else {
          InsertKeepsSlot(t, r);
        }
      }
    }
  }

  lemma PromoteKeepsSlot(s: Sys, id: nat, r: OutputReading)
    requires Slot(s) && id in s.outputs
    ensures Slot(Promote(s, id, r)) && id in Promote(s, id, r).outputs
  {
  }

  lemma BranchStepsKeepSlot(s: Sys, id: nat, r: OutputReading)
    requires Slot(s) && id in s.outputs
    ensures Slot(FailOverdue(s, id, r)) && id in FailOverdue(s, id, r).outputs
    ensures Slot(PollBranch(s, id, r).0) && id in PollBranch(s, id, r).0.outputs
    ensures Slot(NoteFailure(s, id)) && id in NoteFailure(s, id).outputs
  {
  }

  lemma RetireKeepsSlot(s: Sys, id: nat)
    requires Slot(s) && id in s.outputs
    ensures Slot(Retire(s, id))
  {
  }

  lemma ExamineKeepsSlot(s: Sys, id: nat, r: OutputReading)
    requires Slot(s) && id in s.outputs
    ensures Slot(Examine(s, id, r).0) && id in Examine(s, id, r).0.outputs
  {
    PromoteKeepsSlot(s, id, r);
    var a := Promote(s, id, r);
    BranchStepsKeepSlot(a, id, r);
    var b := FailOverdue(a, id, r);
    BranchStepsKeepSlot(b, id, r);
    var c := PollBranch(b, id, r).0;
    BranchStepsKeepSlot(c, id, r);
  }

  lemma PollOutputKeepsSlot(s: Sys, id: nat, r: OutputReading)
    requires Slot(s)
    ensures Slot(PollOutput(s, id, r))
  {
    if id in s.outputs && s.unpolled == {} {
      ExamineKeepsSlot(s, id, r);
      var (t, retired) := Examine(s, id, r);
      RetireKeepsSlot(t, id);
    }
  }

  lemma AmendKeepsSlot(s: Sys, g: nat, f: Option<Fault>)
    requires Slot(s)
    ensures Slot(AmendTerminal(s, g, f))
  {
  }

  lemma RemoveGroupKeepsSlot(s: Sys, g: nat, group: Group)
    requires Slot(s)
    ensures Slot(RemoveGroup(s, g, group))
  {
  }

  lemma EraseGroupKeepsSlot(s: Sys, g: nat, group: Group)
    requires Slot(s)
    ensures Slot(EraseGroup(s, g, group))
  {
    var t := KeepFailure(s, group.branch.fault);
    assert Slot(t);
    hide AmendTerminal, RemoveGroup;
    AmendKeepsSlot(t, g, group.branch.fault);
    RemoveGroupKeepsSlot(AmendTerminal(t, g, group.branch.fault), g, group);
  }

  lemma PollGroupKeepsSlot(s: Sys, g: nat, r: GroupReading)
    requires Slot(s)
    ensures Slot(PollGroup(s, g, r))
  {
    var s := s.(unpolled := s.unpolled - {g});
    if g in s.groups {
      var t := if s.groups[g].branch.fault.Some? then FailMembers(s, g) else s;
      if s.groups[g].branch.fault.Some? { FailMembersIsQuiet(s, g); }
      assert Slot(t);
      EraseGroupKeepsSlot(t, g, Polled(s.groups[g], r).0);
    }
  }

  lemma DrainKeepsSlot(s: Sys, id: nat, generation: Option<nat>, closing: Option<Fault>)
    requires id in s.outputs
    requires Slot(s)
    ensures Slot(DrainOutput(s, id, generation, closing))
  {
  }

  lemma BeginKeepsSlot(s: Sys, id: nat, r: BeginReading)
    requires Undecided(s, id) && s.prep.None? && s.changingGroup.None?
    ensures Slot(BeginPreparation(s, id, r))
  {
    if r.missing.Some? {
      RejectDecides(s, id, r.missing.value);
    } else if r.noWorker.Some? {
      RejectDecides(Begun(s, id, r).(prep := None), id, r.noWorker.value);
    }
  }

  lemma TakeKeepsSlot(s: Sys, r: TakeReading)
    requires Slot(s) && Listed(s)
    ensures Slot(Take(s, r))
  {
    if CanTake(s) {
      var change := C.TakeChange(s.ctl).1.value;
      var t := Taken(s);
      if change.addition {
        BeginKeepsSlot(t, change.id, r.begin);
        NotifyKeepsSlot(BeginPreparation(t, change.id, r.begin));
      } else if change.id !in s.outputs {
        RejectDecides(t, change.id, Fault(NO_BRANCH, Drain));
        NotifyKeepsSlot(Reject(t, change.id, Fault(NO_BRANCH, Drain)));
      } else {
        DrainKeepsSlot(t, change.id, r.generation, r.closing);
      }
    }
  }

  lemma FinishKeepsSlot(s: Sys)
    requires Slot(s)
    ensures Slot(BeginFinish(s))
  {
    var t := s.(finishing := true, ctl := C.SetEnabled(s.ctl, false));
    NotifyKeepsSlot(t);
  }

  lemma FinishOutputKeepsSlot(s: Sys, id: nat, cause: Option<Fault>, generation: Option<nat>, closing: Option<Fault>)
    requires Slot(s)
    ensures Slot(FinishOutput(s, id, cause, generation, closing))
  {
    hide DrainOutput;
    if id in s.outputs { DrainKeepsSlot(s, id, generation, closing); }
  }

  lemma {:induction false} StepKeepsSlot(s: Sys, step: Step)
    requires Slot(s) && Listed(s)
    ensures Slot(Apply(s, step))
  {
    hide LookAtPlanned, LookAtConstructed, PollGroup, Notify, PollOutput, Take, BeginFinish, FinishOutput, Listed;
    match step
    case Planned(r) => PlannedKeepsSlot(s, r);
    case Constructed(r) => ConstructedKeepsSlot(s, r);
    case PollGroupStep(g, r) => PollGroupKeepsSlot(s, g, r);
    case NotifyStep => NotifyKeepsSlot(s);
    case PollOutputStep(id, r) => PollOutputKeepsSlot(s, id, r);
    case TakeStep(r) => TakeKeepsSlot(s, r);
    case FinishStep => FinishKeepsSlot(s);
    case FinishOutputStep(id, cause, generation, closing) =>
      FinishOutputKeepsSlot(s, id, cause, generation, closing);
    case Budget(_) =>
    case Collect =>
    case _ => ForeignKeepsSlot(s, step);
  }
}
