/** What every step does to the change that holds the slot, short of freeing it. */
module ControllerHolding {
  import opened Wrappers
  import opened OutputTypes
  import opened ControllerModel
  import opened ControllerInvariant
  import opened ControllerEffects
  import opened ControllerRuns
  import opened ControllerRelease
  import B = RuntimeBranch
  import C = ControlModel

  // ---- What a change waits for ----

  // An output that will retire, or one that will run or miss its deadline.
  predicate Expected(o: Output) {
    B.Stopping(o.branch) || (o.state.Waiting? && o.deadline.Some?)
  }

  // The output in the slot is expected to leave it, and the group a notification waits for is unused.
  ghost predicate Awaited(s: Sys) {
    && (s.changing.Some? && s.changing.value in s.outputs ==> Expected(s.outputs[s.changing.value]))
    && (s.terminalGroup.Some? && s.terminalGroup.value in s.groups ==> s.groups[s.terminalGroup.value].outputCount == 0)
  }

  // The candidate has been neither published nor rejected.
  predicate Unsettled(s: Sys) {
    s.prep.Some? && !s.prep.value.exchange.release
  }

  // ---- What a step does to the change that holds the slot ----

  predicate OutputGoesOn(o: Output, p: Output) {
    B.Ahead(o.branch, p.branch) && p.deadline == o.deadline && (B.Stopping(p.branch) || p.state == o.state)
  }

  ghost predicate TaskHeld(s: Sys, t: Sys) {
    t.prep.Some? ==>
      && s.prep.Some? && t.prep.value.deadline == s.prep.value.deadline
      && (s.prep.value.exchange.release ==> t.prep.value.exchange.release)
  }

  ghost predicate OutputHeld(s: Sys, t: Sys, c: nat) {
    c in t.outputs ==>
      if c in s.outputs then OutputGoesOn(s.outputs[c], t.outputs[c])
      else Unsettled(s) && !Unsettled(t) && t.outputs[c].state.Waiting?
           && t.outputs[c].deadline == Some(s.prep.value.deadline)
  }

  ghost predicate NoticeHeld(s: Sys, t: Sys) {
    s.terminal.Some? ==>
      && t.terminal.Some? && t.terminalGroup == s.terminalGroup
      && forall g :: g in t.groups ==> g in s.groups && B.Ahead(s.groups[g].branch, t.groups[g].branch)
  }

  ghost predicate Held(s: Sys, t: Sys, c: nat) {
    TaskHeld(s, t) && OutputHeld(s, t, c) && NoticeHeld(s, t) && s.clock <= t.clock
  }

  lemma ClockGoesOn(s: Sys, step: Step)
    ensures s.clock <= Apply(s, step).clock
  {
    hide PollOutput, PollGroup, LookAtConstructed, LookAtPlanned, Expire, Notify, Take, BeginFinish, WorkerTurn,
         DrainOutput;
    match step
    case PollOutputStep(id, r) => PollOutputClock(s, id, r);
    case PollGroupStep(g, r) => PollGroupEffect(s, g, r);
    case Constructed(r) => ConstructedClock(s, r);
    case Planned(r) => PlannedClock(s, r);
    case Budget(elapsed) => ExpireIsQuiet(s, elapsed);
    case NotifyStep => NotifyIsQuiet(s);
    case TakeStep(r) => TakeClock(s, r);
    case FinishStep => FinishClock(s);
    case Work(r) => WorkerEffect(s, r);
    case FinishOutputStep(id, cause, generation, closing) =>
      if id in s.outputs { DrainClock(s, id, generation, closing); }
    case Collect =>
    case _ => ForeignIsQuiet(s, step);
  }

  lemma DrainClock(s: Sys, id: nat, generation: Option<nat>, closing: Option<Fault>)
    requires id in s.outputs
    ensures DrainOutput(s, id, generation, closing).clock == s.clock
  {
  }

  lemma PollOutputClock(s: Sys, id: nat, r: OutputReading)
    ensures s.clock <= PollOutput(s, id, r).clock
  {
    if id in s.outputs && s.unpolled == {} {
      hide Examine, Retire;
      ExamineIsQuiet(s, id, r);
      RetireEffect(Examine(s, id, r).0, id);
    }
  }

  lemma ConstructedClock(s: Sys, r: PublishReading)
    ensures LookAtConstructed(s, r).clock == s.clock
  {
    hide Settle;
    if s.prep.Some? { SettleEffect(s, r); }
  }

  lemma PlannedClock(s: Sys, r: AdmitReading)
    ensures s.clock <= LookAtPlanned(s, r).clock
  {
    if s.prep.Some? && s.prep.value.exchange.stage.Planned? {
      hide Reject, Admission;
      var verdict := Admission(s, s.prep.value, r);
      if verdict.Failure? { RejectIsQuiet(Judging(s, r), s.prep.value.id, verdict.error); }
    }
  }

  lemma BeginClock(s: Sys, id: nat, r: BeginReading)
    ensures s.clock <= BeginPreparation(s, id, r).clock
  {
    hide Reject;
    if r.missing.Some? {
      RejectIsQuiet(s, id, r.missing.value);
    } else if r.noWorker.Some? {
      RejectIsQuiet(Begun(s, id, r).(prep := None), id, r.noWorker.value);
    }
  }

  lemma TakeClock(s: Sys, r: TakeReading)
    ensures s.clock <= Take(s, r).clock
  {
    if CanTake(s) {
      hide BeginPreparation, Notify, Reject, DrainOutput;
      var change := C.TakeChange(s.ctl).1.value;
      var t := Taken(s);
      if change.addition {
        BeginClock(t, change.id, r.begin);
        NotifyIsQuiet(BeginPreparation(t, change.id, r.begin));
      } else if change.id !in s.outputs {
        RejectIsQuiet(t, change.id, Fault(NO_BRANCH, Drain));
        NotifyIsQuiet(Reject(t, change.id, Fault(NO_BRANCH, Drain)));
      } else {
        DrainClock(t, change.id, r.generation, r.closing);
      }
    }
  }

  lemma FinishClock(s: Sys)
    ensures BeginFinish(s).clock == s.clock
  {
    hide Notify, Reject;
    var t := s.(finishing := true, ctl := C.SetEnabled(s.ctl, false));
    var (ctl, change) := C.TakeChange(t.ctl);
    if change.Some? { RejectIsQuiet(t.(ctl := ctl), change.value.id, Fault(CANCELLED, Publication)); }
    NotifyIsQuiet(if change.Some? then Reject(t.(ctl := ctl), change.value.id, Fault(CANCELLED, Publication)) else t);
  }

  // ---- The preparation ----

  lemma StepHoldsTask(s: Sys, step: Step)
    requires Slot(s) && s.changing.Some?
    ensures TaskHeld(s, Apply(s, step))
  {
    hide PollOutput, PollGroup, LookAtConstructed, LookAtPlanned, Expire, Notify, BeginFinish, WorkerTurn, FinishOutput;
    match step
    case PollOutputStep(id, r) => PollOutputTask(s, id, r);
    case PollGroupStep(g, r) => PollGroupEffect(s, g, r);
    case Constructed(r) => ConstructedTask(s, r);
    case Planned(r) => PlannedTask(s, r);
    case Budget(elapsed) => ExpireIsQuiet(s, elapsed);
    case NotifyStep => NotifyIsQuiet(s);
    case TakeStep(r) =>
    case FinishStep => FinishIsQuiet(s);
    case Work(r) => WorkerEffect(s, r);
    case FinishOutputStep(id, cause, generation, closing) => FinishOutputIsQuiet(s, id, cause, generation, closing);
    case Collect =>
    case _ => ForeignIsQuiet(s, step);
  }

  lemma PollOutputTask(s: Sys, id: nat, r: OutputReading)
    ensures PollOutput(s, id, r).prep == s.prep
  {
    if id in s.outputs && s.unpolled == {} {
      hide Examine, Retire;
      ExamineIsQuiet(s, id, r);
      RetireEffect(Examine(s, id, r).0, id);
    }
  }

  lemma ConstructedTask(s: Sys, r: PublishReading)
    ensures TaskHeld(s, LookAtConstructed(s, r))
  {
    hide Settle;
    if s.prep.Some? { SettleEffect(s, r); }
  }

  lemma PlannedTask(s: Sys, r: AdmitReading)
    ensures TaskHeld(s, LookAtPlanned(s, r))
  {
    if s.prep.Some? && s.prep.value.exchange.stage.Planned? {
      hide Reject, Admission;
      PlannedEffect(s, r);
    }
  }

  // ---- The output ----

  lemma DrainStops(s: Sys, id: nat, generation: Option<nat>, closing: Option<Fault>)
    requires id in s.outputs && !s.outputs[id].branch.state.Prepared?
    ensures var t := DrainOutput(s, id, generation, closing);
            id in t.outputs && B.Stopping(t.outputs[id].branch)
            && forall other :: other in s.outputs && other != id ==> t.outputs[other] == s.outputs[other]
  {
  }

  lemma FinishOutputStates(s: Sys, step: Step, c: nat)
    requires step.FinishOutputStep? && c in s.outputs && !s.outputs[c].branch.state.Prepared?
    ensures var t := Apply(s, step);
            c in t.outputs && (B.Stopping(t.outputs[c].branch) || t.outputs[c].state == s.outputs[c].state)
  {
    if step.id == c { DrainStops(s, c, step.generation, step.closing); }
  }

  // A calm step keeps the output's state, or has told it to stop.
  lemma CalmStates(s: Sys, step: Step, c: nat)
    requires Calm(step) && s.ctl.inProgress && c in s.outputs && !s.outputs[c].branch.state.Prepared?
    ensures var t := Apply(s, step);
            c in t.outputs && (B.Stopping(t.outputs[c].branch) || t.outputs[c].state == s.outputs[c].state)
  {
    hide LookAtPlanned, Expire, Notify, BeginFinish, WorkerTurn, FinishOutput;
    match step
    case TakeStep(r) =>
    case Planned(r) => PlannedIsQuiet(s, r);
    case Budget(elapsed) => ExpireIsQuiet(s, elapsed);
    case NotifyStep => NotifyIsQuiet(s);
    case FinishStep => FinishIsQuiet(s);
    case Work(r) => WorkerEffect(s, r);
    case FinishOutputStep(_, _, _, _) => FinishOutputStates(s, step, c);
    case OutputFails(_, _) => BranchStepEffect(s, step);
    case GroupFails(_, _, _) => BranchStepEffect(s, step);
    case Count(_, _, _) => BranchStepEffect(s, step);
    case _ =>
  }

  lemma CalmHoldsOutput(s: Sys, step: Step, c: nat)
    requires Valid(s) && Calm(step) && s.changing == Some(c)
    ensures OutputHeld(s, Apply(s, step), c)
  {
    assert s.ctl.inProgress && (c in s.outputs ==> !s.outputs[c].branch.state.Prepared?);
    hide Apply, Valid;
    CalmIsQuiet(s, step);
    if c in s.outputs {
      CalmStates(s, step, c);
      assert SameOutput(s.outputs[c], Apply(s, step).outputs[c]);
    }
  }

  lemma GroupPollHoldsOutput(s: Sys, g: nat, r: GroupReading, c: nat)
    ensures OutputHeld(s, PollGroup(s, g, r), c)
  {
    if g in s.groups && s.groups[g].outputCount == 0 {
      hide PollUnused;
      var u := s.(unpolled := s.unpolled - {g});
      PollUnusedEffect(if s.groups[g].branch.fault.Some? then FailMembers(u, g) else u, g, r);
    }
  }

  lemma NotedStates(s: Sys, id: nat, r: OutputReading)
    requires id in s.outputs
    ensures var t := NoteFailure(PollBranch(FailOverdue(s, id, r), id, r).0, id);
            id in t.outputs && (B.Stopping(t.outputs[id].branch) || t.outputs[id].state == s.outputs[id].state)
            && forall other :: other in s.outputs && other != id ==>
                 other in t.outputs && t.outputs[other] == s.outputs[other]
  {
  }

  lemma PromoteStates(s: Sys, id: nat, r: OutputReading, c: nat)
    requires id in s.outputs && s.changing == Some(c) && Promote(s, id, r).changing == Some(c) && c in s.outputs
    ensures c in Promote(s, id, r).outputs && Promote(s, id, r).outputs[c] == s.outputs[c]
  {
    hide Promote;
    PromoteShape(s, id, r);
  }

  lemma ExamineHoldsOutput(s: Sys, id: nat, r: OutputReading, c: nat)
    requires id in s.outputs && s.changing == Some(c) && Examine(s, id, r).0.changing == Some(c)
    ensures OutputHeld(s, Examine(s, id, r).0, c)
  {
    hide Promote, FailOverdue, PollBranch, NoteFailure;
    ExamineIsQuiet(s, id, r);
    PromoteIsQuiet(s, id, r);
    var a := Promote(s, id, r);
    OverdueIsQuiet(a, id, r);
    var b := FailOverdue(a, id, r);
    PollBranchIsQuiet(b, id, r);
    NoteIsQuiet(PollBranch(b, id, r).0, id);
    if c in s.outputs {
      PromoteStates(s, id, r, c);
      NotedStates(a, id, r);
      assert SameOutput(s.outputs[c], Examine(s, id, r).0.outputs[c]);
    }
  }

  lemma OutputPollHoldsOutput(s: Sys, id: nat, r: OutputReading, c: nat)
    requires s.changing == Some(c) && PollOutput(s, id, r).changing == Some(c)
    ensures OutputHeld(s, PollOutput(s, id, r), c)
  {
    if id in s.outputs && s.unpolled == {} {
      hide Examine, Retire;
      ExamineFrees(s, id, r);
      var (t, retired) := Examine(s, id, r);
      ExamineIsQuiet(s, id, r);
      if t.changing == Some(c) {
        ExamineHoldsOutput(s, id, r, c);
        RetireEffect(t, id);
      } else if retired {
        RetireLeavesSlot(t, id);
      }
    }
  }

  lemma ConstructedHoldsOutput(s: Sys, r: PublishReading, c: nat)
    requires Slot(s) && s.changing == Some(c)
    ensures OutputHeld(s, LookAtConstructed(s, r), c)
  {
    if s.prep.Some? && s.prep.value.exchange.stage.Constructed? { SettleEffect(s, r); }
  }

  lemma StepHoldsOutput(s: Sys, step: Step, c: nat)
    requires Valid(s) && s.changing == Some(c) && Apply(s, step).changing == Some(c)
    ensures OutputHeld(s, Apply(s, step), c)
  {
    hide PollOutput, PollGroup, LookAtConstructed, OutputHeld, Grouped, Drawn, Listed;
    if Calm(step) {
      CalmHoldsOutput(s, step, c);
    } else if step.Constructed? {
      ConstructedHoldsOutput(s, step.publish, c);
    } else if step.PollGroupStep? {
      GroupPollHoldsOutput(s, step.group, step.groupReading, c);
    } else {
      OutputPollHoldsOutput(s, step.id, step.outputReading, c);
    }
  }

  // ---- The notification ----

  lemma RejectLeavesGroup(s: Sys, id: nat, f: Fault)
    requires s.changingGroup.None?
    ensures Reject(s, id, f).terminalGroup == s.terminalGroup
  {
  }

  // A calm step leaves the awaited group alone, or sends the notification.
  lemma CalmLeavesGroup(s: Sys, step: Step)
    requires Slot(s) && Calm(step)
    ensures var t := Apply(s, step);
            && (t.terminalGroup == s.terminalGroup || t.terminalGroup.None?)
            && (s.terminal.Some? && t.changing == s.changing ==> t.terminal.Some? && t.terminalGroup == s.terminalGroup)
  {
    hide LookAtPlanned, Take, BeginFinish, Reject;
    match step
    case TakeStep(r) => TakeLeavesGroup(s, r);
    case FinishStep => FinishLeavesGroup(s);
    case Planned(r) => PlannedLeavesGroup(s, r);
    case _ =>
  }

  lemma PlannedLeavesGroup(s: Sys, r: AdmitReading)
    requires Slot(s)
    ensures LookAtPlanned(s, r).terminalGroup == s.terminalGroup
    ensures s.terminal.Some? ==> LookAtPlanned(s, r) == s
  {
    if s.terminal.Some? { NothingToJudge(s, Planned(r)); }
    if s.prep.Some? && s.prep.value.exchange.stage.Planned? {
      hide Reject, Admission;
      PlannedEffect(s, r);
      var verdict := Admission(s, s.prep.value, r);
      if verdict.Failure? { RejectLeavesGroup(Judging(s, r), s.prep.value.id, verdict.error); }
    }
  }

  lemma TakeLeavesGroup(s: Sys, r: TakeReading)
    requires Slot(s)
    ensures Take(s, r).terminalGroup == s.terminalGroup || Take(s, r).terminalGroup.None?
    ensures s.terminal.Some? ==> Take(s, r) == s
  {
    if CanTake(s) {
      hide Reject;
      var change := C.TakeChange(s.ctl).1.value;
      var t := Taken(s);
      RejectLeavesGroup(t, change.id, Fault(NO_BRANCH, Drain));
      if r.begin.missing.Some? {
        RejectLeavesGroup(t, change.id, r.begin.missing.value);
      } else if r.begin.noWorker.Some? {
        RejectLeavesGroup(Begun(t, change.id, r.begin).(prep := None), change.id, r.begin.noWorker.value);
      }
    }
  }

  lemma FinishLeavesGroup(s: Sys)
    requires Slot(s)
    ensures var t := BeginFinish(s);
            && (t.terminalGroup == s.terminalGroup || t.terminalGroup.None?)
            && (s.terminal.Some? && t.changing == s.changing ==> t.terminal.Some? && t.terminalGroup == s.terminalGroup)
  {
    hide Reject;
    var t := s.(finishing := true, ctl := C.SetEnabled(s.ctl, false));
    var (ctl, change) := C.TakeChange(t.ctl);
    if change.Some? { RejectLeavesGroup(t.(ctl := ctl), change.value.id, Fault(CANCELLED, Publication)); }
  }

  lemma CalmHoldsNotice(s: Sys, step: Step)
    requires Slot(s) && Calm(step) && Apply(s, step).changing == s.changing
    ensures NoticeHeld(s, Apply(s, step))
  {
    hide Apply, Slot;
    CalmLeavesGroup(s, step);
    CalmIsQuiet(s, step);
    var t := Apply(s, step);
    forall g | g in t.groups ensures g in s.groups && B.Ahead(s.groups[g].branch, t.groups[g].branch) {
      assert SameGroup(s.groups[g], t.groups[g]);
    }
  }

  lemma GroupPollHoldsNotice(s: Sys, g: nat, r: GroupReading)
    ensures NoticeHeld(s, PollGroup(s, g, r)) && PollGroup(s, g, r).terminalGroup == s.terminalGroup
  {
    GroupPollLeavesNotice(s, g, r);
    hide PollGroup;
    PollGroupEffect(s, g, r);
    if g in s.groups && s.groups[g].outputCount == 0 { GroupPollIsQuiet(s.groups[g], r); }
  }

  lemma GroupPollLeavesNotice(s: Sys, g: nat, r: GroupReading)
    ensures PollGroup(s, g, r).terminalGroup == s.terminalGroup
    ensures s.terminal.Some? ==> PollGroup(s, g, r).terminal.Some?
  {
    hide Polled, EraseGroup;
    if g in s.groups {
      var u := s.(unpolled := s.unpolled - {g});
      EraseLeavesNotice(if s.groups[g].branch.fault.Some? then FailMembers(u, g) else u, g, Polled(s.groups[g], r).0);
    }
  }

  lemma EraseLeavesNotice(s: Sys, g: nat, group: Group)
    ensures EraseGroup(s, g, group).terminalGroup == s.terminalGroup
    ensures s.terminal.Some? ==> EraseGroup(s, g, group).terminal.Some?
  {
  }

  lemma RetireLeavesNotice(s: Sys, id: nat)
    requires id in s.outputs
    ensures var t := Retire(s, id);
            && (t.terminalGroup == s.terminalGroup
                || (t.terminalGroup == Some(s.outputs[id].groupId) && s.outputs[id].groupId in t.groups
                    && t.groups[s.outputs[id].groupId].outputCount == 0))
            && (s.changing != Some(id) ==> t.terminal == s.terminal && t.terminalGroup == s.terminalGroup)
            && (forall g :: g in t.groups ==> g in s.groups && t.groups[g].outputCount <= s.groups[g].outputCount)
  {
  }

  lemma OutputPollHoldsNotice(s: Sys, id: nat, r: OutputReading)
    requires Slot(s)
    ensures NoticeHeld(s, PollOutput(s, id, r))
  {
    if id in s.outputs && s.unpolled == {} && s.terminal.Some? {
      hide Examine, Retire;
      ExamineIsQuiet(s, id, r);
      ExamineFrees(s, id, r);
      var (t, retired) := Examine(s, id, r);
      RetireEffect(t, id);
      RetireLeavesNotice(t, id);
    }
  }

  lemma StepHoldsNotice(s: Sys, step: Step)
    requires Slot(s) && Apply(s, step).changing == s.changing
    ensures NoticeHeld(s, Apply(s, step))
  {
    hide PollOutput, PollGroup, LookAtConstructed, NoticeHeld;
    if Calm(step) {
      CalmHoldsNotice(s, step);
    } else if step.Constructed? {
      ConstructedHoldsNotice(s, step);
    } else if step.PollGroupStep? {
      GroupPollHoldsNotice(s, step.group, step.groupReading);
    } else {
      OutputPollHoldsNotice(s, step.id, step.outputReading);
    }
  }

  lemma ConstructedHoldsNotice(s: Sys, step: Step)
    requires Slot(s) && step.Constructed?
    ensures NoticeHeld(s, Apply(s, step))
  {
    if s.terminal.Some? {
      hide Apply;
      NothingToJudge(s, step);
    }
  }

  /** What holds of a change through every step that does not free its slot. */
  lemma StepHolds(s: Sys, step: Step, c: nat)
    requires Valid(s) && s.changing == Some(c) && Apply(s, step).changing == Some(c)
    ensures Held(s, Apply(s, step), c)
  {
    StepIsSlotted(s);
    hide Apply, Valid, TaskHeld, OutputHeld, NoticeHeld;
    StepHoldsTask(s, step);
    StepHoldsOutput(s, step, c);
    StepHoldsNotice(s, step);
    ClockGoesOn(s, step);
  }

  lemma StepIsSlotted(s: Sys)
    requires Valid(s)
    ensures Slot(s)
  {
  }

  // ---- Awaited is kept ----

  lemma ConstructedKeepsUnused(s: Sys, r: PublishReading)
    requires Slot(s) && s.terminal.None?
    ensures var t := LookAtConstructed(s, r);
            t.terminalGroup.Some? && t.terminalGroup.value in t.groups ==>
              t.groups[t.terminalGroup.value].outputCount == 0
  {
    if s.prep.Some? && s.prep.value.exchange.stage.Constructed? {
      var task := s.prep.value;
      if task.broken.Some? || task.plan.Failure? {
        RejectLeavesGroup(s, task.id, if task.broken.Some? then task.broken.value else Fault(CANCELLED, Publication));
      } else if Refusal(s, task, r).Some? {
        RejectLeavesGroup(s, task.id, Refusal(s, task, r).value);
      }
    }
  }

  lemma PollOutputKeepsUnused(s: Sys, id: nat, r: OutputReading)
    requires Awaited(s)
    ensures var t := PollOutput(s, id, r);
            t.terminalGroup.Some? && t.terminalGroup.value in t.groups ==>
              t.groups[t.terminalGroup.value].outputCount == 0
  {
    if id in s.outputs && s.unpolled == {} {
      hide Examine, Retire;
      ExamineIsQuiet(s, id, r);
      RetireLeavesNotice(Examine(s, id, r).0, id);
    }
  }

  lemma StepKeepsUnused(s: Sys, step: Step)
    requires Slot(s) && Awaited(s)
    ensures var t := Apply(s, step);
            t.terminalGroup.Some? && t.terminalGroup.value in t.groups ==>
              t.groups[t.terminalGroup.value].outputCount == 0
  {
    hide PollOutput, PollGroup, LookAtConstructed;
    if Calm(step) {
      CalmKeepsUnused(s, step);
    } else if step.Constructed? {
      if s.terminal.Some? { NothingToJudge(s, step); } else { ConstructedKeepsUnused(s, step.publish); }
    } else if step.PollGroupStep? {
      GroupPollKeepsUnused(s, step.group, step.groupReading);
    } else {
      PollOutputKeepsUnused(s, step.id, step.outputReading);
    }
  }

  lemma CalmKeepsUnused(s: Sys, step: Step)
    requires Slot(s) && Awaited(s) && Calm(step)
    ensures var t := Apply(s, step);
            t.terminalGroup.Some? && t.terminalGroup.value in t.groups ==>
              t.groups[t.terminalGroup.value].outputCount == 0
  {
    hide Apply, Slot;
    CalmLeavesGroup(s, step);
    CalmIsQuiet(s, step);
    var t := Apply(s, step);
    if t.terminalGroup.Some? && t.terminalGroup.value in t.groups {
      assert SameGroup(s.groups[t.terminalGroup.value], t.groups[t.terminalGroup.value]);
    }
  }

  lemma GroupPollKeepsUnused(s: Sys, g: nat, r: GroupReading)
    requires Awaited(s)
    ensures var t := PollGroup(s, g, r);
            t.terminalGroup.Some? && t.terminalGroup.value in t.groups ==>
              t.groups[t.terminalGroup.value].outputCount == 0
  {
    hide PollGroup;
    GroupPollHoldsNotice(s, g, r);
    PollGroupEffect(s, g, r);
    if g in s.groups && s.groups[g].outputCount == 0 { GroupPollIsQuiet(s.groups[g], r); }
  }

  // A command just taken concerns no output, or one that has been told to stop.
  lemma TakeIsExpected(s: Sys, r: TakeReading)
    requires Valid(s) && s.changing.None?
    ensures var t := Take(s, r);
            t.changing.Some? && t.changing.value in t.outputs ==> Expected(t.outputs[t.changing.value])
  {
    if CanTake(s) {
      var change := C.TakeChange(s.ctl).1.value;
      assert change.addition ==> change.id !in s.outputs;
      assert change.id in s.outputs ==> !s.outputs[change.id].branch.state.Prepared?;
      hide Valid, BeginPreparation, Reject, Notify, DrainOutput;
      var t := Taken(s);
      if change.addition {
        BeginIsQuiet(t, change.id, r.begin);
        NotifyIsQuiet(BeginPreparation(t, change.id, r.begin));
        NotifyMayFree(BeginPreparation(t, change.id, r.begin));
      } else if change.id !in s.outputs {
        RejectIsQuiet(t, change.id, Fault(NO_BRANCH, Drain));
        NotifyIsQuiet(Reject(t, change.id, Fault(NO_BRANCH, Drain)));
        NotifyMayFree(Reject(t, change.id, Fault(NO_BRANCH, Drain)));
      } else {
        DrainIsQuiet(t, change.id, r.generation, r.closing);
        DrainStops(t, change.id, r.generation, r.closing);
      }
    }
  }

  lemma NotifyMayFree(s: Sys)
    ensures Notify(s).changing == s.changing || Notify(s).changing.None?
  {
  }

  // Only the taking of a command makes an output the changing one.
  lemma OnlyTakeChanges(s: Sys, step: Step)
    requires Valid(s) && Apply(s, step).changing.Some? && Apply(s, step).changing != s.changing
    ensures step.TakeStep? && s.changing.None?
  {
    if s.changing.Some? {
      var c := s.changing.value;
      SlotFreeMeansReleased(s, step, c);
    } else {
      StepIsSlotted(s);
      hide Valid;
      if !step.TakeStep? { NobodyElseTakes(s, step); }
    }
  }

  lemma NobodyElseTakes(s: Sys, step: Step)
    requires Slot(s) && s.changing.None? && !step.TakeStep?
    ensures Apply(s, step).changing.None?
  {
    hide PollOutput, PollGroup, LookAtConstructed, LookAtPlanned, Expire, Notify, BeginFinish, WorkerTurn;
    match step
    case PollOutputStep(id, r) => PollOutputTakesNothing(s, id, r);
    case PollGroupStep(g, r) => PollGroupEffect(s, g, r);
    case Constructed(r) => ConstructedTakesNothing(s, r);
    case Planned(r) => PlannedHoldsSlot(s, r);
    case Budget(elapsed) => ExpireIsQuiet(s, elapsed);
    case NotifyStep => NotifyMayFree(s);
    case FinishStep => FinishTakesNothing(s);
    case Work(r) => WorkerEffect(s, r);
    case FinishOutputStep(id, cause, generation, closing) =>
      if id in s.outputs { DrainIsQuiet(s, id, generation, closing); }
    case Collect =>
    case _ => ForeignIsQuiet(s, step);
  }

  lemma ConstructedTakesNothing(s: Sys, r: PublishReading)
    ensures LookAtConstructed(s, r).changing == s.changing
  {
    hide Settle;
    if s.prep.Some? { SettleEffect(s, r); }
  }

  lemma FinishTakesNothing(s: Sys)
    requires s.changing.None?
    ensures BeginFinish(s).changing.None?
  {
    hide Notify, Reject;
    var t := s.(finishing := true, ctl := C.SetEnabled(s.ctl, false));
    var (ctl, change) := C.TakeChange(t.ctl);
    if change.Some? { RejectIsQuiet(t.(ctl := ctl), change.value.id, Fault(CANCELLED, Publication)); }
    NotifyMayFree(if change.Some? then Reject(t.(ctl := ctl), change.value.id, Fault(CANCELLED, Publication)) else t);
  }

  lemma PollOutputTakesNothing(s: Sys, id: nat, r: OutputReading)
    requires s.changing.None?
    ensures PollOutput(s, id, r).changing.None?
  {
    if id in s.outputs && s.unpolled == {} {
      hide Promote, FailOverdue, PollBranch, NoteFailure, Retire;
      PromoteIsQuiet(s, id, r);
      PromoteShape(s, id, r);
      var a := Promote(s, id, r);
      OverdueIsQuiet(a, id, r);
      var b := FailOverdue(a, id, r);
      PollBranchIsQuiet(b, id, r);
      NoteIsQuiet(PollBranch(b, id, r).0, id);
      RetireLeavesSlot(Examine(s, id, r).0, id);
    }
  }

  lemma TakeStepIsExpected(s: Sys, step: Step)
    requires Valid(s) && s.changing.None? && step.TakeStep?
    ensures var t := Apply(s, step);
            t.changing.Some? && t.changing.value in t.outputs ==> Expected(t.outputs[t.changing.value])
  {
    hide Valid, Take;
    TakeIsExpected(s, step.take);
  }

  lemma StepKeepsAwaited(s: Sys, step: Step)
    requires Valid(s) && Awaited(s)
    ensures Awaited(Apply(s, step))
  {
    hide Apply, Valid;
    StepIsSlotted(s);
    StepKeepsUnused(s, step);
    var t := Apply(s, step);
    if t.changing.Some? {
      if t.changing == s.changing {
        StepHoldsOutput(s, step, t.changing.value);
      } else {
        OnlyTakeChanges(s, step);
        TakeStepIsExpected(s, step);
      }
    }
  }

  lemma InitialIsAwaited(shared: set<nat>, encoding: set<nat>, protocol: set<nat>, generation: nat, startedAt: nat,
                         startupWait: nat, traffic: nat, capacity: nat, lease: nat)
    ensures Awaited(Initial(shared, encoding, protocol, generation, startedAt, startupWait, traffic, capacity, lease))
  {
  }

  /** In every run a change has something to wait for that will come. */
  lemma {:induction false} RunKeepsAwaited(s: Sys, steps: seq<Step>)
    requires Valid(s) && Awaited(s)
    ensures Valid(Run(s, steps)) && Awaited(Run(s, steps))
    decreases |steps|
  {
    hide Apply, Valid, Awaited;
    if steps != [] {
      StepKeepsValid(s, steps[0]);
      StepKeepsAwaited(s, steps[0]);
      RunKeepsAwaited(Apply(s, steps[0]), steps[1..]);
    }
  }
}
