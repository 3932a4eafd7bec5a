/** When the busy slot is freed, and what is left of the change by then. */
module ControllerRelease {
  import opened Wrappers
  import opened OutputTypes
  import opened ControllerModel
  import opened ControllerInvariant
  import opened ControllerEffects
  import opened ControllerSlot
  import opened ControllerGroups
  import opened ControllerTable
  import opened ControllerRuns
  import C = ControlModel
  import X = PreparationExchange

  // ---- One step ----

  // The step publishes c Running: it was waiting, in time for its transaction and for its startup, its
  // authority was active, and there was ready evidence of its own generation.
  predicate BecomesRunning(s: Sys, step: Step, c: nat) {
    && step.PollOutputStep? && step.id == c && c in s.outputs && s.outputs[c].state.Waiting? && s.prep.None?
    && var o, r := s.outputs[c], step.outputReading;
       && Before(s.clock + r.first, o.deadline)
       && s.clock + r.first + r.second - o.startedAt < o.startupWait
       && r.active && r.evidence == Some(o.generation) && o.branch.fault.None?
  }

  // Nothing of the change is left: no output, no entry, no unused group.
  ghost predicate Released(s: Sys, t: Sys, c: nat) {
    && c !in t.outputs && c !in t.ctl.table
    && (s.terminalGroup.Some? ==> s.terminalGroup.value !in t.groups)
    && (c in s.outputs ==> s.outputs[c].groupId in t.groups && t.groups[s.outputs[c].groupId].outputCount > 0)
  }

  lemma NotifyFrees(s: Sys, c: nat)
    requires Slot(s) && C.Sound(s.ctl) && s.changing == Some(c) && Notify(s).changing != Some(c)
    ensures Notify(s).changing.None? && s.prep.None? && Released(s, Notify(s), c)
  {
  }

  lemma ExamineFrees(s: Sys, c: nat, r: OutputReading)
    requires c in s.outputs && s.changing.Some?
    ensures var t := Examine(s, c, r).0;
            t.changing == s.changing || (t.changing.None? && s.changing == Some(c)
                && BecomesRunning(s, PollOutputStep(c, r), c))
  {
    PromoteIsQuiet(s, c, r);
    var a := Promote(s, c, r);
    OverdueIsQuiet(a, c, r);
    var b := FailOverdue(a, c, r);
    PollBranchIsQuiet(b, c, r);
    NoteIsQuiet(PollBranch(b, c, r).0, c);
  }

  lemma RetireFrees(s: Sys, id: nat, c: nat)
    requires Slot(s) && Grouped(s) && C.Sound(s.ctl) && id in s.outputs
    requires s.changing == Some(c) && Retire(s, id).changing != Some(c)
    ensures id == c && Retire(s, id).changing.None? && Released(s, Retire(s, id), c)
  {
  }

  lemma PollOutputFrees(s: Sys, id: nat, r: OutputReading, c: nat)
    requires Valid(s) && s.changing == Some(c) && PollOutput(s, id, r).changing != Some(c)
    ensures PollOutput(s, id, r).changing.None?
    ensures BecomesRunning(s, PollOutputStep(id, r), c) || Released(s, PollOutput(s, id, r), c)
  {
    hide Examine, Retire;
    ExamineFrees(s, id, r);
    ExamineKeepsSlot(s, id, r);
    ExamineIsQuiet(s, id, r);
    ExamineKeepsListed(s, id, r);
    var (t, retired) := Examine(s, id, r);
    if t.changing == Some(c) {
      QuietKeepsGroups(s, t);
      RetireFrees(t, id, c);
    } else if retired {
      RetireLeavesSlot(t, id);
    }
  }

  lemma RetireLeavesSlot(s: Sys, id: nat)
    requires id in s.outputs && s.changing.None?
    ensures Retire(s, id).changing.None?
  {
  }

  /** The slot is freed only when its output has just become Running, or when nothing of the change
      is left: the output has retired, its entry is erased, the group it leaves unused is gone from
      the registry, and no preparation is outstanding. */
  lemma {:induction false} SlotFreeMeansReleased(s: Sys, step: Step, c: nat)
    requires Valid(s) && s.changing == Some(c) && Apply(s, step).changing != Some(c)
    ensures var t := Apply(s, step);
            && t.changing.None? && t.prep.None? && t.terminal.None? && !t.ctl.inProgress
            && (BecomesRunning(s, step, c) || Released(s, t, c))
  {
    hide LookAtPlanned, LookAtConstructed, PollGroup, PollOutput, BeginFinish, Notify, Expire, WorkerTurn, Grouped,
         Drawn, BecomesRunning, Released, DrainOutput, C.Sound, C.Ordered;
    StepKeepsSlot(s, step);
    match step
    case NotifyStep => NotifyFrees(s, c);
    case FinishStep => FinishFrees(s, c);
    case PollOutputStep(id, r) => PollOutputFrees(s, id, r, c);
    case TakeStep(r) =>
    case PollGroupStep(g, r) => PollGroupEffect(s, g, r);
    case Planned(r) => PlannedHoldsSlot(s, r);
    case Constructed(r) => ConstructedHoldsSlot(s, r);
    case Budget(elapsed) => ExpireIsQuiet(s, elapsed);
    case Work(r) => WorkerEffect(s, r);
    case FinishOutputStep(id, cause, generation, closing) =>
      if id in s.outputs { DrainIsQuiet(s, id, generation, closing); }
    case Collect =>
    case _ => ForeignIsQuiet(s, step);
  }

  lemma ConstructedHoldsSlot(s: Sys, r: PublishReading)
    ensures LookAtConstructed(s, r).changing == s.changing
  {
    hide Settle;
    if s.prep.Some? { SettleEffect(s, r); }
  }

  lemma PlannedHoldsSlot(s: Sys, r: AdmitReading)
    ensures LookAtPlanned(s, r).changing == s.changing
  {
    if s.prep.Some? && s.prep.value.exchange.stage.Planned? {
      PlannedEffect(s, r);
      var verdict := Admission(s, s.prep.value, r);
      if verdict.Failure? { RejectIsQuiet(Judging(s, r), s.prep.value.id, verdict.error); }
    }
  }

  lemma FinishFrees(s: Sys, c: nat)
    requires Slot(s) && C.Sound(s.ctl) && s.changing == Some(c) && BeginFinish(s).changing != Some(c)
    ensures BeginFinish(s).changing.None? && Released(s, BeginFinish(s), c)
  {
    var t := s.(finishing := true, ctl := C.SetEnabled(s.ctl, false));
    C.ApplyKeepsSound(s.ctl, C.Enable(false));
    NotifyFrees(t, c);
  }

  // ---- Whole runs ----

  // The deferred notification for c waits for group g.
  predicate Deferred(s: Sys, c: nat, g: nat) {
    s.terminal.Some? && s.terminal.value.id == c && s.terminalGroup == Some(g)
  }

  /** The last member of a group, retired while it is changing, leaves its notification behind. */
  lemma LastMemberDefers(s: Sys, c: nat)
    requires Slot(s) && Grouped(s) && c in s.outputs && s.changing == Some(c)
    requires s.groups[s.outputs[c].groupId].outputCount == 1
    ensures Deferred(Retire(s, c), c, s.outputs[c].groupId) && Retire(s, c).changing == Some(c)
  {
  }

  // A preparation that has been rejected or published is not looked at again.
  lemma DecidedIsReleased(s: Sys)
    requires Slot(s) && s.terminal.Some? && s.prep.Some?
    ensures !X.ControlOwns(s.prep.value.exchange)
  {
  }

  lemma NothingToJudge(s: Sys, step: Step)
    requires Slot(s) && s.terminal.Some? && (step.Planned? || step.Constructed? || step.TakeStep?)
    ensures Apply(s, step) == s
  {
    hide Slot;
    if s.prep.Some? { DecidedIsReleased(s); }
  }

  lemma PollOutputDefers(s: Sys, id: nat, r: OutputReading, c: nat, g: nat)
    requires Slot(s) && Deferred(s, c, g)
    ensures Deferred(PollOutput(s, id, r), c, g)
  {
    if id in s.outputs && s.unpolled == {} {
      ExamineIsQuiet(s, id, r);
      ExamineFrees(s, id, r);
      ExamineKeepsSlot(s, id, r);
    }
  }

  lemma PollGroupDefers(s: Sys, h: nat, r: GroupReading, c: nat, g: nat)
    requires Slot(s) && Deferred(s, c, g)
    ensures Deferred(PollGroup(s, h, r), c, g)
  {
    var u := s.(unpolled := s.unpolled - {h});
    if h in s.groups {
      var t := if s.groups[h].branch.fault.Some? then FailMembers(u, h) else u;
      hide Polled, EraseGroup;
      EraseDefers(t, h, Polled(s.groups[h], r).0, c, g);
    }
  }

  lemma EraseDefers(s: Sys, h: nat, group: Group, c: nat, g: nat)
    requires Deferred(s, c, g)
    ensures Deferred(EraseGroup(s, h, group), c, g)
  {
  }

  lemma DeferredHolds(s: Sys, step: Step, c: nat, g: nat)
    requires Slot(s) && Deferred(s, c, g)
    ensures Deferred(Apply(s, step), c, g) || (g !in s.groups && g !in Apply(s, step).groups)
  {
    match step
    case Planned(_) => NothingToJudge(s, step);
    case Constructed(_) => NothingToJudge(s, step);
    case TakeStep(_) => NothingToJudge(s, step);
    case PollOutputStep(id, r) => PollOutputDefers(s, id, r, c, g);
    case PollGroupStep(h, r) => PollGroupDefers(s, h, r, c, g);
    case FinishOutputStep(id, cause, generation, closing) =>
    case _ =>
  }

  /** Over whole runs: once the last member of a group has retired while changing, the slot stays
      busy until that group is gone from the registry, and it never comes back. */
  lemma {:induction false} SlotWaitsForGroup(s: Sys, steps: seq<Step>, c: nat, g: nat)
    requires Valid(s) && Deferred(s, c, g) && g < s.nextGroup
    ensures var t := Run(s, steps); (t.changing == Some(c) && t.ctl.inProgress) || g !in t.groups
    decreases |steps|
  {
    if steps != [] {
      var step := steps[0];
      var t := Apply(s, step);
      DeferredHolds(s, step, c, g);
      StepKeepsValid(s, step);
      if Deferred(t, c, g) {
        GroupIdsOnlyGrow(s, step);
        SlotWaitsForGroup(t, steps[1..], c, g);
      } else {
        assert Spent(s, g);
        StepKeepsSpent(s, step, g);
        DrainingGroupIsNeverJoined(t, steps[1..], g);
      }
    }
  }

  // The same notification, or one that its group's failure has been added to.
  predicate SameNotice(a: Snapshot, b: Snapshot) {
    b == a || (a.error.None? && b == a.(error := b.error, stage := b.stage))
  }

  lemma PollGroupKeepsNotice(s: Sys, g: nat, r: GroupReading)
    requires s.terminal.Some?
    ensures PollGroup(s, g, r).terminal.Some? && SameNotice(s.terminal.value, PollGroup(s, g, r).terminal.value)
  {
    hide Polled;
  }

  lemma PollOutputKeepsNotice(s: Sys, id: nat, r: OutputReading)
    requires Slot(s) && s.terminal.Some?
    ensures PollOutput(s, id, r).terminal == s.terminal
  {
    if id in s.outputs && s.unpolled == {} {
      ExamineIsQuiet(s, id, r);
      ExamineFrees(s, id, r);
      ExamineKeepsSlot(s, id, r);
    }
  }

  /** A deferred notification is never overwritten: until it is sent it stays, or gains the failure
      its group met while retiring. */
  lemma NoticeIsKept(s: Sys, step: Step)
    requires Slot(s) && s.terminal.Some?
    ensures var t := Apply(s, step);
            if t.terminal.Some? then SameNotice(s.terminal.value, t.terminal.value)
            else t.changing.None? && !t.ctl.inProgress
  {
    match step
    case Planned(_) => NothingToJudge(s, step);
    case Constructed(_) => NothingToJudge(s, step);
    case TakeStep(_) => NothingToJudge(s, step);
    case PollOutputStep(id, r) => PollOutputKeepsNotice(s, id, r);
    case PollGroupStep(g, r) => PollGroupKeepsNotice(s, g, r);
    case Work(r) => WorkerEffect(s, r);
    case FinishOutputStep(id, cause, generation, closing) =>
    case _ =>
  }

  // ---- Becoming Running ----

  // No output of t is Running that was not Running in s.
  ghost predicate NoneStarts(s: Sys, t: Sys) {
    forall id :: id in t.outputs && t.outputs[id].state.Running? ==> id in s.outputs && s.outputs[id].state.Running?
  }

  lemma CalmStartsNone(s: Sys, step: Step)
    requires Calm(step)
    ensures NoneStarts(s, Apply(s, step))
  {
    hide Take, LookAtPlanned, BeginFinish, Expire, Notify, WorkerTurn;
    match step
    case TakeStep(r) => TakeStartsNone(s, r);
    case Planned(r) => PlannedIsQuiet(s, r);
    case FinishStep => FinishIsQuiet(s);
    case Budget(elapsed) => ExpireIsQuiet(s, elapsed);
    case NotifyStep => NotifyIsQuiet(s);
    case Work(r) => WorkerEffect(s, r);
    case _ =>
  }

  lemma TakeStartsNone(s: Sys, r: TakeReading)
    ensures NoneStarts(s, Take(s, r))
  {
    if CanTake(s) {
      var change := C.TakeChange(s.ctl).1.value;
      var t := Taken(s);
      if change.addition {
        BeginIsQuiet(t, change.id, r.begin);
        NotifyIsQuiet(BeginPreparation(t, change.id, r.begin));
      } else if change.id !in s.outputs {
        RejectIsQuiet(t, change.id, Fault(NO_BRANCH, Drain));
        NotifyIsQuiet(Reject(t, change.id, Fault(NO_BRANCH, Drain)));
      }
    }
  }

  lemma PollGroupStartsNone(s: Sys, g: nat, r: GroupReading)
    ensures NoneStarts(s, PollGroup(s, g, r))
  {
    if g in s.groups && s.groups[g].outputCount == 0 {
      var u := s.(unpolled := s.unpolled - {g});
      PollUnusedEffect(if s.groups[g].branch.fault.Some? then FailMembers(u, g) else u, g, r);
    }
  }

  lemma ConstructedStartsNone(s: Sys, r: PublishReading)
    ensures NoneStarts(s, LookAtConstructed(s, r))
  {
    hide Settle, NewOutput;
    if s.prep.Some? {
      SettleOutputs(s, r);
      if s.prep.value.plan.Success? { NewOutputWaits(s.prep.value, r); }
    }
  }

  // Apart from a promotion, looking at an output leaves every state it finds or fails one.
  lemma PromoteStarts(s: Sys, id: nat, r: OutputReading)
    requires id in s.outputs
    ensures Promote(s, id, r).outputs == s.outputs || BecomesRunning(s, PollOutputStep(id, r), id)
  {
  }

  lemma LookStartsNone(s: Sys, id: nat, r: OutputReading)
    requires id in s.outputs
    ensures var t := PollBranch(FailOverdue(s, id, r), id, r).0; id in t.outputs && NoneStarts(s, t)
  {
  }

  lemma NoteStartsNone(s: Sys, id: nat)
    requires id in s.outputs
    ensures NoneStarts(s, NoteFailure(s, id))
  {
  }

  lemma ExamineStarts(s: Sys, id: nat, r: OutputReading)
    requires id in s.outputs
    ensures BecomesRunning(s, PollOutputStep(id, r), id) || NoneStarts(s, Examine(s, id, r).0)
  {
    PromoteStarts(s, id, r);
    PromoteIsQuiet(s, id, r);
    var a := Promote(s, id, r);
    LookStartsNone(a, id, r);
    var b := PollBranch(FailOverdue(a, id, r), id, r).0;
    NoteStartsNone(b, id);
  }

  /** An output becomes Running only in its own poll, only from Waiting, before its deadline, with
      ready evidence of its own generation and no preparation outstanding. */
  lemma {:induction false} OnlyReadyOutputsRun(s: Sys, step: Step, id: nat)
    requires id in Apply(s, step).outputs && Apply(s, step).outputs[id].state.Running?
    requires id in s.outputs ==> !s.outputs[id].state.Running?
    ensures BecomesRunning(s, step, id)
  {
    if Calm(step) {
      CalmStartsNone(s, step);
    } else if step.Constructed? {
      ConstructedStartsNone(s, step.publish);
    } else if step.PollGroupStep? {
      PollGroupStartsNone(s, step.group, step.groupReading);
    } else if step.id in s.outputs && s.unpolled == {} {
      ExamineStarts(s, step.id, step.outputReading);
      ExamineIsQuiet(s, step.id, step.outputReading);
      ExamineTouchesOne(s, step.id, step.outputReading);
      RetireEffect(Examine(s, step.id, step.outputReading).0, step.id);
    }
  }

  lemma ExamineTouchesOne(s: Sys, id: nat, r: OutputReading)
    requires id in s.outputs
    ensures forall other :: other in s.outputs && other != id ==>
              other in Examine(s, id, r).0.outputs && Examine(s, id, r).0.outputs[other] == s.outputs[other]
  {
  }

  // ---- The same over whole runs ----

  lemma RunLaterPrefix(s: Sys, steps: seq<Step>, i: nat)
    requires steps != [] && i < |steps| - 1
    ensures Run(s, steps[..i + 1]) == Run(Apply(s, steps[0]), steps[1..][..i])
  {
    assert steps[..i + 1][1..] == steps[1..][..i];
  }

  // Step i of the run publishes id Running, ready and in time.
  ghost predicate StartsAt(s: Sys, steps: seq<Step>, i: nat, id: nat) {
    i < |steps| && BecomesRunning(Run(s, steps[..i]), steps[i], id)
  }

  /** Deadline safety over whole runs: an output that runs became Running at some step of the run, from
      Waiting, before its deadline and with ready evidence of its own generation. */
  lemma {:induction false} RunningWasReady(s: Sys, steps: seq<Step>, id: nat)
    requires id in Run(s, steps).outputs && Run(s, steps).outputs[id].state.Running?
    requires id in s.outputs ==> !s.outputs[id].state.Running?
    ensures exists i: nat :: StartsAt(s, steps, i, id)
    decreases |steps|
  {
    hide Apply, BecomesRunning;
    var t := Apply(s, steps[0]);
    if id in t.outputs && t.outputs[id].state.Running? {
      OnlyReadyOutputsRun(s, steps[0], id);
      assert steps[..0] == [];
      assert StartsAt(s, steps, 0, id);
    } else {
      RunningWasReady(t, steps[1..], id);
      var i: nat :| StartsAt(t, steps[1..], i, id);
      RunLaterPrefix(s, steps, i);
      assert StartsAt(s, steps, i + 1, id);
    }
  }

  // Step i of the run frees the slot of c, properly.
  ghost predicate FreesAt(s: Sys, steps: seq<Step>, i: nat, c: nat) {
    && i < |steps|
    && var here := Run(s, steps[..i]);
       var after := Apply(here, steps[i]);
       && here.changing == Some(c) && after.changing.None? && after.prep.None? && !after.ctl.inProgress
       && (BecomesRunning(here, steps[i], c) || Released(here, after, c))
  }

  /** The busy slot over whole runs: it is given back only at a step where its output has just become
      Running, or where nothing is left of the change. */
  lemma {:induction false} SlotIsFreedProperly(s: Sys, steps: seq<Step>, c: nat)
    requires Valid(s) && s.changing == Some(c) && Run(s, steps).changing != Some(c)
    ensures exists i: nat :: FreesAt(s, steps, i, c)
    decreases |steps|
  {
    hide Apply, BecomesRunning, Released, Valid;
    var t := Apply(s, steps[0]);
    if t.changing != Some(c) {
      SlotFreeMeansReleased(s, steps[0], c);
      assert steps[..0] == [];
      assert FreesAt(s, steps, 0, c);
    } else {
      StepKeepsValid(s, steps[0]);
      SlotIsFreedProperly(t, steps[1..], c);
      var i: nat :| FreesAt(t, steps[1..], i, c);
      RunLaterPrefix(s, steps, i);
      assert FreesAt(s, steps, i + 1, c);
    }
  }
}
