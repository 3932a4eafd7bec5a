/** finish() shrinks, terminates, and leaves nothing behind. */
module ControllerFinish {
  import opened Wrappers
  import opened OutputTypes
  import opened ControllerModel
  import opened ControllerInvariant
  import opened ControllerEffects
  import opened ControllerRuns
  import opened ControllerPoll
  import opened ControllerProgress
  import opened Sums
  import B = RuntimeBranch
  import C = ControlModel

  // ---- What holds once finish() has told everything to stop ----

  // No command can come any more.
  predicate Shut(s: Sys) {
    s.finishing && !s.ctl.enabled && s.ctl.pending.None?
  }

  ghost predicate Stopped(s: Sys) {
    && Valid(s) && Shut(s)
    && forall id :: id in s.outputs ==> B.Stopping(s.outputs[id].branch)
  }

  // Publishing and completing leave the rest of the mailbox alone.
  lemma PollOutputKeepsShut(s: Sys, id: nat, r: OutputReading)
    requires Shut(s)
    ensures Shut(PollOutput(s, id, r))
  {
    if id in s.outputs && s.unpolled == {} {
      var a := Promote(s, id, r);
      PromoteIsQuiet(s, id, r);
      assert Shut(a);
      ExamineKeepsShut(a, id, r);
      var c := PollBranch(FailOverdue(a, id, r), id, r).0;
      RetireKeepsShut(NoteFailure(c, id), id);
    }
  }

  lemma ExamineKeepsShut(s: Sys, id: nat, r: OutputReading)
    requires Shut(s) && id in s.outputs
    ensures var c := PollBranch(FailOverdue(s, id, r), id, r).0;
            id in c.outputs && Shut(NoteFailure(c, id)) && id in NoteFailure(c, id).outputs
  {
  }

  lemma RetireKeepsShut(s: Sys, id: nat)
    requires Shut(s) && id in s.outputs
    ensures Shut(Retire(s, id))
  {
  }

  lemma SettleKeepsShut(s: Sys, r: PublishReading)
    requires Shut(s)
    ensures Shut(LookAtConstructed(s, r))
  {
    hide Settle;
    if s.prep.Some? && s.prep.value.exchange.stage.Constructed? {
      SettleEffect(s, r);
      SettleOutputs(s, r);
    }
  }

  lemma PlannedKeepsShut(s: Sys, r: AdmitReading)
    requires Shut(s)
    ensures Shut(LookAtPlanned(s, r))
  {
    if s.prep.Some? && s.prep.value.exchange.stage.Planned? {
      PlannedEffect(s, r);
      var verdict := Admission(s, s.prep.value, r);
      if verdict.Failure? { RejectIsQuiet(Judging(s, r), s.prep.value.id, verdict.error); }
    }
  }

  lemma GroupPollKeepsShut(s: Sys, g: nat, r: GroupReading)
    requires Shut(s)
    ensures Shut(PollGroup(s, g, r))
  {
    hide Polled, EraseGroup;
    if g in s.groups {
      var u := s.(unpolled := s.unpolled - {g});
      EraseKeepsShut(if s.groups[g].branch.fault.Some? then FailMembers(u, g) else u, g, Polled(s.groups[g], r).0);
    }
  }

  lemma EraseKeepsShut(s: Sys, g: nat, group: Group)
    requires Shut(s)
    ensures Shut(EraseGroup(s, g, group))
  {
  }

  lemma FinishKeepsShut(s: Sys)
    requires Shut(s)
    ensures Shut(BeginFinish(s))
  {
  }

  lemma FinishOutputKeepsShut(s: Sys, id: nat, cause: Option<Fault>, generation: Option<nat>, closing: Option<Fault>)
    requires Shut(s)
    ensures Shut(FinishOutput(s, id, cause, generation, closing))
  {
  }

  lemma StepKeepsShut(s: Sys, step: Step)
    requires Shut(s)
    ensures Shut(Apply(s, step))
  {
    hide PollOutput, LookAtConstructed, LookAtPlanned, PollGroup, FinishOutput, BeginFinish;
    match step
    case PollOutputStep(id, r) => PollOutputKeepsShut(s, id, r);
    case Constructed(r) => SettleKeepsShut(s, r);
    case Planned(r) => PlannedKeepsShut(s, r);
    case Work(r) => WorkerEffect(s, r);
    case PollGroupStep(g, r) => GroupPollKeepsShut(s, g, r);
    case FinishOutputStep(id, cause, generation, closing) => FinishOutputKeepsShut(s, id, cause, generation, closing);
    case FinishStep => FinishKeepsShut(s);
    case _ =>
  }

  lemma ShrinkingKeepsStopped(s: Sys, t: Sys)
    requires Stopped(s) && Valid(t) && Shut(t) && Shrinks(s, t)
    ensures Stopped(t)
  {
    hide Valid;
    forall id | id in t.outputs ensures B.Stopping(t.outputs[id].branch) {
      assert B.Ahead(s.outputs[id].branch, t.outputs[id].branch);
    }
  }

  lemma StepKeepsStopped(s: Sys, step: Step)
    requires Stopped(s)
    ensures Stopped(Apply(s, step))
  {
    StepKeepsValid(s, step);
    StepKeepsShut(s, step);
    FinishingStepShrinks(s, step);
    ShrinkingKeepsStopped(s, Apply(s, step));
  }

  lemma {:induction false} RunKeepsStopped(s: Sys, steps: seq<Step>)
    requires Stopped(s)
    ensures Stopped(Run(s, steps))
    decreases |steps|
  {
    if steps != [] {
      StepKeepsStopped(s, steps[0]);
      RunKeepsStopped(Apply(s, steps[0]), steps[1..]);
    }
  }

  lemma {:induction false} RunGoesOn(s: Sys, steps: seq<Step>, k: nat)
    requires Stopped(s)
    ensures PrepGoesOn(s, Run(s, steps), k)
    decreases |steps|
  {
    if steps != [] {
      StepGoesOn(s, steps[0], k);
      StepKeepsStopped(s, steps[0]);
      RunGoesOn(Apply(s, steps[0]), steps[1..], k);
      GoesOnTwice(s, Apply(s, steps[0]), Run(s, steps), k);
    }
  }

  // A run with a step that serves the preparation as it stands brings it closer to its end.
  lemma {:induction false} ServedRunLeavesLess(s: Sys, steps: seq<Step>, step: Step, k: nat)
    requires Stopped(s) && s.prep.Some? && step in steps && Serves(step, s.prep.value.exchange, k)
    ensures PrepLeft(Run(s, steps), k) < PrepLeft(s, k)
    decreases |steps|
  {
    var t := Apply(s, steps[0]);
    StepGoesOn(s, steps[0], k);
    StepKeepsStopped(s, steps[0]);
    if PrepLeft(t, k) < PrepLeft(s, k) {
      RunGoesOn(t, steps[1..], k);
    } else {
      assert steps[0] != step;
      ServedRunLeavesLess(t, steps[1..], step, k);
    }
  }

  // ---- Outputs and groups ----

  lemma StoppedOutput(s: Sys, id: nat)
    requires Stopped(s) && id in s.outputs
    ensures B.Stopping(s.outputs[id].branch) && !s.outputs[id].branch.state.Prepared?
  {
  }

  lemma OutputPollLeavesLess(s: Sys, id: nat, r: OutputReading, k: nat)
    requires Stopped(s) && s.unpolled == {} && id in s.outputs && r.poll.patience <= k
    ensures var t := Apply(s, PollOutputStep(id, r));
            id in t.outputs ==> B.Left(t.outputs[id].branch, k) < B.Left(s.outputs[id].branch, k)
  {
    hide Examine, Retire, Stopped;
    StoppedOutput(s, id);
    ExamineLeavesLess(s, id, r, k);
    RetireEffect(Examine(s, id, r).0, id);
  }

  // A run that polls a stopping output brings it closer to its end.
  lemma {:induction false} PolledOutputLeavesLess(s: Sys, steps: seq<Step>, id: nat, r: OutputReading, k: nat)
    requires Stopped(s) && s.unpolled == {} && id in s.outputs && r.poll.patience <= k
    requires PollOutputStep(id, r) in steps && forall step :: step in steps ==> !step.Constructed?
    ensures var t := Run(s, steps);
            id in t.outputs ==> B.Left(t.outputs[id].branch, k) < B.Left(s.outputs[id].branch, k)
    decreases |steps|
  {
    hide Apply;
    var t := Apply(s, steps[0]);
    FinishingStepShrinks(s, steps[0]);
    StepKeepsStopped(s, steps[0]);
    StaysPolled(s, steps[0]);
    FinishingRunShrinks(t, steps[1..]);
    var u := Run(s, steps);
    if id in u.outputs {
      if steps[0] == PollOutputStep(id, r) {
        OutputPollLeavesLess(s, id, r, k);
        B.AheadLeavesLess(t.outputs[id].branch, u.outputs[id].branch, k);
      } else {
        PolledOutputLeavesLess(t, steps[1..], id, r, k);
        B.AheadLeavesLess(s.outputs[id].branch, t.outputs[id].branch, k);
      }
    }
  }

  lemma GroupPollLeavesLess(s: Sys, g: nat, r: GroupReading, k: nat)
    requires Valid(s) && s.outputs == map[] && g in s.groups && r.poll.patience <= k
    ensures var t := Apply(s, PollGroupStep(g, r));
            g in t.groups ==> B.Left(t.groups[g].branch, k) < B.Left(s.groups[g].branch, k)
  {
    PollGroupEffect(s, g, r);
    assert Members(s.outputs, g) == {};
    UnusedGroupLeavesLess(s.groups[g], r, k);
  }

  lemma {:induction false} PolledGroupLeavesLess(s: Sys, steps: seq<Step>, g: nat, r: GroupReading, k: nat)
    requires Stopped(s) && s.outputs == map[] && g in s.groups && r.poll.patience <= k && PollGroupStep(g, r) in steps
    ensures var t := Run(s, steps); g in t.groups ==> B.Left(t.groups[g].branch, k) < B.Left(s.groups[g].branch, k)
    decreases |steps|
  {
    hide Apply;
    var t := Apply(s, steps[0]);
    FinishingStepShrinks(s, steps[0]);
    StepKeepsStopped(s, steps[0]);
    FinishingRunShrinks(t, steps[1..]);
    assert t.outputs == map[];
    var u := Run(s, steps);
    if g in u.groups {
      if steps[0] == PollGroupStep(g, r) {
        GroupPollLeavesLess(s, g, r, k);
        B.AheadLeavesLess(t.groups[g].branch, u.groups[g].branch, k);
      } else {
        PolledGroupLeavesLess(t, steps[1..], g, r, k);
        B.AheadLeavesLess(s.groups[g].branch, t.groups[g].branch, k);
      }
    }
  }

  // ---- What is left ----

  function OutputsLeft(outputs: map<nat, Output>, k: nat): map<nat, nat> {
    map id | id in outputs :: 1 + B.Left(outputs[id].branch, k)
  }

  function GroupsLeft(groups: map<nat, Group>, k: nat): map<nat, nat> {
    map g | g in groups :: 1 + B.Left(groups[g].branch, k)
  }

  // What finish() still has to wait for.
  ghost function Remaining(s: Sys, k: nat): nat {
    PrepLeft(s, k) + Sum(OutputsLeft(s.outputs, k)) + Sum(GroupsLeft(s.groups, k))
  }

  lemma ShrinkingIsBelow(s: Sys, t: Sys, k: nat)
    requires Shrinks(s, t)
    ensures Below(OutputsLeft(s.outputs, k), OutputsLeft(t.outputs, k))
    ensures Below(GroupsLeft(s.groups, k), GroupsLeft(t.groups, k))
  {
    forall id | id in t.outputs ensures id in s.outputs && B.Left(t.outputs[id].branch,
             k) <= B.Left(s.outputs[id].branch, k) {
      B.AheadLeavesLess(s.outputs[id].branch, t.outputs[id].branch, k);
    }
    forall g | g in t.groups ensures g in s.groups && B.Left(t.groups[g].branch, k) <= B.Left(s.groups[g].branch, k) {
      B.AheadLeavesLess(s.groups[g].branch, t.groups[g].branch, k);
    }
  }

  // The preparation, one output or one group got closer to its end.
  ghost predicate SomethingMoved(s: Sys, t: Sys, k: nat) {
    || PrepLeft(t, k) < PrepLeft(s, k)
    || (exists id :: id in s.outputs && OutputMoved(s, t, id, k))
    || (exists g :: g in s.groups && GroupMoved(s, t, g, k))
  }

  predicate OutputMoved(s: Sys, t: Sys, id: nat, k: nat)
    requires id in s.outputs
  {
    id in t.outputs ==> B.Left(t.outputs[id].branch, k) < B.Left(s.outputs[id].branch, k)
  }

  predicate GroupMoved(s: Sys, t: Sys, g: nat, k: nat)
    requires g in s.groups
  {
    g in t.groups ==> B.Left(t.groups[g].branch, k) < B.Left(s.groups[g].branch, k)
  }

  lemma MovingLeavesLess(s: Sys, t: Sys, k: nat)
    requires Shrinks(s, t) && PrepLeft(t, k) <= PrepLeft(s, k) && SomethingMoved(s, t, k)
    ensures Remaining(t, k) < Remaining(s, k)
  {
    ShrinkingIsBelow(s, t, k);
    SumShrinks(OutputsLeft(s.outputs, k), OutputsLeft(t.outputs, k));
    SumShrinks(GroupsLeft(s.groups, k), GroupsLeft(t.groups, k));
    if id :| id in s.outputs && OutputMoved(s, t, id, k) {
      SumDrops(OutputsLeft(s.outputs, k), OutputsLeft(t.outputs, k), id);
    } else if g :| g in s.groups && GroupMoved(s, t, g, k) {
      SumDrops(GroupsLeft(s.groups, k), GroupsLeft(t.groups, k), g);
    }
  }

  // ---- One round of the loop: a poll, then the other threads during the sleep ----

  predicate Busy(s: Sys) {
    s.prep.Some? || s.outputs != map[] || s.groups != map[]
  }

  lemma PreparationMoves(s: Sys, env: Surroundings, asleep: seq<Step>, k: nat)
    requires Stopped(s) && Fair(env, asleep, k) && s.prep.Some?
    ensures PrepLeft(Run(s, PollTrace(s, env) + asleep), k) < PrepLeft(s, k)
  {
    StepsInTrace(s, env, asleep);
    var trace := PollTrace(s, env) + asleep;
    var x := s.prep.value.exchange;
    var r :| Work(r) in asleep && r.patience <= k;
    var step := if x.stage.Planned? then Planned(env.planned) else if x.stage.Constructed? then
                Constructed(env.constructed)
                else if x.worker.Done? then Collect else Work(r);
    ServedRunLeavesLess(s, trace, step, k);
  }

  lemma OutputMoves(s: Sys, env: Surroundings, id: nat, k: nat)
    requires Stopped(s) && Proper(env) && id in s.outputs && forall i :: env.outputs(i).poll.patience <= k
    ensures var t := Run(s, PollTrace(s, env));
            id in t.outputs ==> B.Left(t.outputs[id].branch, k) < B.Left(s.outputs[id].branch, k)
  {
    hide Apply, Run;
    var opening := Opening(s, env);
    var a := Run(s, opening);
    FinishingRunShrinks(s, opening);
    RunKeepsStopped(s, opening);
    OutputsComeAfterGroups(s, env);
    var middle := OutputSteps(env, a.ctl.nextId);
    var b := Run(a, middle);
    var ending := Conclusion(b, env);
    RunAppend(s, opening, middle);
    RunAppend(s, opening + middle, ending);
    RunKeepsStopped(a, middle);
    FinishingRunShrinks(a, middle);
    FinishingRunShrinks(b, ending);
    var t := Run(s, PollTrace(s, env));
    if id in t.outputs {
      OutputMovesThen(s, a, b, t, env, id, k);
    }
  }

  lemma OutputMovesThen(s: Sys, a: Sys, b: Sys, t: Sys, env: Surroundings, id: nat, k: nat)
    requires Proper(env) && Stopped(a) && a.unpolled == {} && (forall i :: env.outputs(i).poll.patience <= k)
    requires b == Run(a, OutputSteps(env, a.ctl.nextId))
    requires Shrinks(s, a) && Shrinks(a, b) && Shrinks(b, t) && id in t.outputs
    ensures id in s.outputs && B.Left(t.outputs[id].branch, k) < B.Left(s.outputs[id].branch, k)
  {
    assert id in b.outputs && id in a.outputs && id in s.outputs;
    assert OutputListed(a, id);
    OutputStepsHas(env, a.ctl.nextId, id);
    PolledOutputLeavesLess(a, OutputSteps(env, a.ctl.nextId), id, env.outputs(id), k);
    B.AheadLeavesLess(s.outputs[id].branch, a.outputs[id].branch, k);
    B.AheadLeavesLess(b.outputs[id].branch, t.outputs[id].branch, k);
  }

  lemma GroupMoves(s: Sys, env: Surroundings, g: nat, k: nat)
    requires Stopped(s) && s.outputs == map[] && g in s.groups && forall h :: env.groups(h).poll.patience <= k
    ensures var t := Run(s, PollTrace(s, env));
            g in t.groups ==> B.Left(t.groups[g].branch, k) < B.Left(s.groups[g].branch, k)
  {
    hide Apply, Run;
    var first := PreparationSteps(env);
    var a := Run(s, first);
    FinishingRunShrinks(s, first);
    RunKeepsStopped(s, first);
    var polls := GroupSteps(env, false, a.nextGroup);
    var rest := PollTrace(s, env)[|first + polls|..];
    assert PollTrace(s, env) == first + polls + rest;
    RunAppend(s, first, polls);
    RunAppend(s, first + polls, rest);
    var b := Run(a, polls);
    FinishingRunShrinks(a, polls);
    FinishingRunShrinks(b, rest);
    var t := Run(s, PollTrace(s, env));
    if g in t.groups {
      assert g in b.groups && g in a.groups;
      assert a.outputs == map[];
      GroupStepsHas(env, a.nextGroup, g);
      PolledGroupLeavesLess(a, polls, g, env.groups(g), k);
      B.AheadLeavesLess(s.groups[g].branch, a.groups[g].branch, k);
      B.AheadLeavesLess(b.groups[g].branch, t.groups[g].branch, k);
    }
  }

  // The state after one round.
  function Round(s: Sys, env: Surroundings, asleep: seq<Step>): Sys {
    Run(Run(s, PollTrace(s, env)), asleep)
  }

  /** Every fair round leaves strictly less to wait for. */
  lemma RoundLeavesLess(s: Sys, env: Surroundings, asleep: seq<Step>, k: nat)
    requires Stopped(s) && Proper(env) && Fair(env, asleep, k) && Busy(s)
    ensures Stopped(Round(s, env, asleep)) && Remaining(Round(s, env, asleep), k) < Remaining(s, k)
  {
    hide Apply, Run, Valid, PollTrace, PrepLeft, Remaining;
    var a := Run(s, PollTrace(s, env));
    var t := Round(s, env, asleep);
    RunAppend(s, PollTrace(s, env), asleep);
    RunKeepsStopped(s, PollTrace(s, env) + asleep);
    FinishingRunShrinks(s, PollTrace(s, env) + asleep);
    RunGoesOn(s, PollTrace(s, env) + asleep, k);
    FinishingRunShrinks(s, PollTrace(s, env));
    FinishingRunShrinks(a, asleep);
    assert SomethingMoved(s, t, k) by {
      if s.prep.Some? {
        PreparationMoves(s, env, asleep, k);
      } else if s.outputs != map[] {
        var id :| id in s.outputs;
        OutputMoves(s, env, id, k);
        if id in t.outputs { B.AheadLeavesLess(a.outputs[id].branch, t.outputs[id].branch, k); }
      } else {
        var g :| g in s.groups;
        GroupMoves(s, env, g, k);
        if g in t.groups { B.AheadLeavesLess(a.groups[g].branch, t.groups[g].branch, k); }
      }
    }
    MovingLeavesLess(s, t, k);
  }

  // ---- What is left at the end ----

  // A deferred notification waits for something.
  ghost predicate Settled(s: Sys) {
    !Busy(s) ==> s.terminal.None?
  }

  lemma NotifySettles(s: Sys)
    ensures Settled(Notify(s))
  {
  }

  lemma OthersKeepSettled(s: Sys, steps: seq<Step>)
    requires Settled(s) && ForeignOnly(steps)
    ensures Settled(Run(s, steps))
    decreases |steps|
  {
    if steps != [] {
      assert steps[0] in steps;
      var t := Apply(s, steps[0]);
      if steps[0].Work? { WorkerEffect(s, steps[0].work); } else { ForeignIsQuiet(s, steps[0]); }
      if !Busy(t) {
        assert s.outputs == map[] && s.groups == map[];
      }
      OthersKeepSettled(t, steps[1..]);
    }
  }

  /** Between two polls of finish() a deferred notification waits for something. */
  lemma PollSettles(s: Sys, env: Surroundings)
    requires Stopped(s) && Proper(env)
    ensures Settled(Run(s, PollTrace(s, env)))
  {
    hide Apply, Run;
    var start := Opening(s, env) + OutputSteps(env, Run(s, Opening(s, env)).ctl.nextId);
    RunAppend(s, Opening(s, env), OutputSteps(env, Run(s, Opening(s, env)).ctl.nextId));
    var polls := GroupSteps(env, true, Run(s, start).nextGroup);
    var before := start + polls + env.others(8, 0) + [NotifyStep];
    assert PollTrace(s, env) == before + env.others(9, 0) + [TakeStep(env.take)];
    RunThen(s, start + polls, env.others(8, 0), NotifyStep);
    NotifySettles(Run(Run(s, start + polls), env.others(8, 0)));
    NotifyIsAStep(Run(Run(s, start + polls), env.others(8, 0)));
    RunThen(s, before, env.others(9, 0), TakeStep(env.take));
    OthersKeepSettled(Run(s, before), env.others(9, 0));
    FinishingRunShrinks(s, before + env.others(9, 0));
    RunAppend(s, before, env.others(9, 0));
    NoMoreCommands(Run(s, before + env.others(9, 0)), env.take);
  }

  lemma NoMoreCommands(s: Sys, r: TakeReading)
    requires s.finishing
    ensures Apply(s, TakeStep(r)) == s
  {
  }

  /** When finish() leaves its loop nothing is pending and no output is listed. */
  lemma NothingIsLeft(s: Sys)
    requires Stopped(s) && !Busy(s) && Settled(s)
    ensures s.terminal.None? && s.changing.None? && !s.ctl.inProgress && s.ctl.table == map[]
  {
    assert forall id :: id !in s.ctl.table;
  }

  // ---- The start of finish() ----

  lemma FinishShuts(s: Sys)
    requires Valid(s)
    ensures Shut(BeginFinish(s)) && Settled(BeginFinish(s))
  {
    var t := s.(finishing := true, ctl := C.SetEnabled(s.ctl, false));
    var (ctl, change) := C.TakeChange(t.ctl);
    var u := if change.Some? then Reject(t.(ctl := ctl), change.value.id, Fault(CANCELLED, Publication)) else t;
    if change.Some? { RejectIsQuiet(t.(ctl := ctl), change.value.id, Fault(CANCELLED, Publication)); }
    assert Shut(u);
    NotifySettles(u);
  }

  lemma FailedOrDrainedStops(s: Sys, id: nat, cause: Option<Fault>, generation: Option<nat>, closing: Option<Fault>)
    requires s.finishing && id in s.outputs && !s.outputs[id].branch.state.Prepared?
    ensures var t := FinishOutput(s, id, cause, generation, closing);
            id in t.outputs && B.Stopping(t.outputs[id].branch)
  {
  }

  lemma StopIsAStep(s: Sys, id: nat, cause: Option<Fault>, generation: Option<nat>, closing: Option<Fault>)
    ensures Apply(s, FinishOutputStep(id, cause, generation, closing)) ==
            FinishOutput(s, id, cause, generation, closing)
  {
  }

  lemma FinishOutputStops(s: Sys, step: Step)
    requires Valid(s) && s.finishing && step.FinishOutputStep? && step.id in s.outputs
    ensures var t := Apply(s, step); step.id in t.outputs && B.Stopping(t.outputs[step.id].branch)
  {
    FailedOrDrainedStops(s, step.id, step.cause, step.generation, step.closing);
  }

  // The outputs below n have been told to stop.
  ghost predicate StoppedBelow(s: Sys, n: nat) {
    Valid(s) && Shut(s) && forall id :: id in s.outputs && id < n ==> B.Stopping(s.outputs[id].branch)
  }

  lemma ShrinkingKeepsStoppedBelow(s: Sys, t: Sys, n: nat)
    requires StoppedBelow(s, n) && Valid(t) && Shut(t) && Shrinks(s, t)
    ensures StoppedBelow(t, n)
  {
    hide Valid;
    forall id | id in t.outputs && id < n ensures B.Stopping(t.outputs[id].branch) {
      assert B.Ahead(s.outputs[id].branch, t.outputs[id].branch);
    }
  }

  lemma {:induction false} RunKeepsStoppedBelow(s: Sys, steps: seq<Step>, n: nat)
    requires StoppedBelow(s, n)
    ensures StoppedBelow(Run(s, steps), n)
    decreases |steps|
  {
    if steps != [] {
      StepKeepsValid(s, steps[0]);
      StepKeepsShut(s, steps[0]);
      FinishingStepShrinks(s, steps[0]);
      ShrinkingKeepsStoppedBelow(s, Apply(s, steps[0]), n);
      RunKeepsStoppedBelow(Apply(s, steps[0]), steps[1..], n);
    }
  }

  lemma NextOutputStops(s: Sys, step: Step)
    requires step.FinishOutputStep? && StoppedBelow(s, step.id)
    ensures StoppedBelow(Apply(s, step), step.id + 1)
  {
    var t := Apply(s, step);
    StepKeepsValid(s, step);
    StepKeepsShut(s, step);
    FinishingStepShrinks(s, step);
    ShrinkingKeepsStoppedBelow(s, t, step.id);
    if step.id in t.outputs { FinishOutputStops(s, step); }
    OneMoreStopped(t, step.id);
  }

  lemma OneMoreStopped(s: Sys, n: nat)
    requires StoppedBelow(s, n) && (n in s.outputs ==> B.Stopping(s.outputs[n].branch))
    ensures StoppedBelow(s, n + 1)
  {
  }

  lemma FinishOutputKeepsSettled(s: Sys, step: Step)
    requires Settled(s) && step.FinishOutputStep?
    ensures Settled(Apply(s, step))
  {
    FinishOutputIsQuiet(s, step.id, step.cause, step.generation, step.closing);
    assert Apply(s, step).terminal == s.terminal;
  }

  // What holds while finish() tells the outputs, all below n, to stop: those below i have been told.
  ghost predicate Telling(s: Sys, i: nat, n: nat) {
    StoppedBelow(s, i) && Settled(s) && forall id :: id in s.outputs ==> id < n
  }

  lemma TellingStarts(s: Sys, n: nat)
    requires Valid(s) && n == BeginFinish(s).ctl.nextId && Valid(BeginFinish(s))
    ensures Telling(BeginFinish(s), 0, n)
  {
    FinishShuts(s);
    var t := BeginFinish(s);
    forall id | id in t.outputs ensures id < n {
      assert OutputListed(t, id);
    }
  }

  lemma TellingGoesOn(s: Sys, others: seq<Step>, step: Step, n: nat)
    requires step.FinishOutputStep? && Telling(s, step.id, n) && ForeignOnly(others)
    ensures Telling(Apply(Run(s, others), step), step.id + 1, n)
  {
    var t := Run(s, others);
    RunKeepsStoppedBelow(s, others, step.id);
    FinishingRunShrinks(s, others);
    OthersKeepSettled(s, others);
    NextOutputStops(t, step);
    FinishingStepShrinks(t, step);
    FinishOutputKeepsSettled(t, step);
  }

  lemma TellingEnds(s: Sys, n: nat)
    requires Telling(s, n, n)
    ensures Stopped(s) && Settled(s)
  {
  }

  lemma IdleHasNothingLeft(s: Sys, k: nat)
    requires !Busy(s)
    ensures Remaining(s, k) == 0
  {
    assert OutputsLeft(s.outputs, k) == map[] && GroupsLeft(s.groups, k) == map[];
  }

  lemma BusyHasSomethingLeft(s: Sys, k: nat)
    requires Busy(s)
    ensures Remaining(s, k) > 0
  {
    if id :| id in s.outputs {
      SumSplits(OutputsLeft(s.outputs, k), id);
    } else if g :| g in s.groups {
      SumSplits(GroupsLeft(s.groups, k), g);
    }
  }

  lemma FinishKeepsValid(s: Sys)
    requires Valid(s)
    ensures Valid(BeginFinish(s))
  {
    hide Valid, BeginFinish;
    StepKeepsValid(s, FinishStep);
  }

  lemma StoppedIsShut(s: Sys)
    requires Stopped(s)
    ensures Valid(s) && s.finishing && !s.ctl.enabled
  {
  }

  // ---- finish() as a run ----

  // What finish() reads and what the other threads do meanwhile: before it tells output id to stop, in
  // its i-th poll, and while it sleeps after that.
  datatype Farewell = Farewell(
    cause: Option<Fault>, generations: nat -> Option<nat>, closings: nat -> Option<Fault>,
    others: nat -> seq<Step>, polls: nat -> Surroundings, sleeps: nat -> seq<Step>)

  ghost predicate FairFarewell(env: Farewell, k: nat) {
    && (forall id :: ForeignOnly(env.others(id)))
    && (forall i :: Proper(env.polls(i)) && ForeignOnly(env.sleeps(i)) && Fair(env.polls(i), env.sleeps(i), k))
  }

  function StopStep(env: Farewell, id: nat): Step {
    FinishOutputStep(id, env.cause, env.generations(id), env.closings(id))
  }

  // The mailbox is closed and the outputs below n are told to stop.
  function StopSteps(env: Farewell, n: nat): seq<Step> {
    if n == 0 then [FinishStep] else StopSteps(env, n - 1) + env.others(n - 1) + [StopStep(env, n - 1)]
  }

  // One round of the loop; after the last one there is no sleep.
  function RoundSteps(s: Sys, env: Surroundings, asleep: seq<Step>): seq<Step> {
    var trace := PollTrace(s, env);
    trace + if Busy(Run(s, trace)) then asleep else []
  }

  function RoundsSteps(s: Sys, env: Farewell, n: nat): seq<Step> {
    if n == 0 then []
    else
      var before := RoundsSteps(s, env, n - 1);
      before + RoundSteps(Run(s, before), env.polls(n - 1), env.sleeps(n - 1))
  }

  // A call of finish() that takes n rounds.
  function FinishSteps(s: Sys, env: Farewell, n: nat): seq<Step> {
    var stop := StopSteps(env, BeginFinish(s).ctl.nextId);
    stop + RoundsSteps(Run(s, stop), env, n)
  }

  lemma StopStarts(s: Sys, env: Farewell)
    ensures Run(s, StopSteps(env, 0)) == BeginFinish(s)
  {
    hide BeginFinish;
    assert [FinishStep][1..] == [];
    assert Run(s, [FinishStep]) == Run(Apply(s, FinishStep), []);
  }

  lemma StopGoesOn(s: Sys, env: Farewell, id: nat)
    ensures Run(s, StopSteps(env, id + 1)) == Apply(Run(Run(s, StopSteps(env, id)), env.others(id)), StopStep(env, id))
  {
    hide Apply, Run;
    RunThen(s, StopSteps(env, id), env.others(id), StopStep(env, id));
  }

  lemma NoRounds(s: Sys, env: Farewell)
    ensures Run(s, RoundsSteps(s, env, 0)) == s
  {
  }

  lemma RoundsGoOn(s: Sys, env: Farewell, n: nat)
    ensures var here := Run(s, RoundsSteps(s, env, n));
            Run(s, RoundsSteps(s, env, n + 1)) == Run(here, RoundSteps(here, env.polls(n), env.sleeps(n)))
  {
    hide Apply, Run;
    var before := RoundsSteps(s, env, n);
    RunAppend(s, before, RoundSteps(Run(s, before), env.polls(n), env.sleeps(n)));
  }

  lemma RoundRun(s: Sys, env: Surroundings, asleep: seq<Step>)
    ensures var a := Run(s, PollTrace(s, env));
            Run(s, RoundSteps(s, env, asleep)) == if Busy(a) then Run(a, asleep) else a
  {
    hide Apply, Run;
    var trace := PollTrace(s, env);
    RunAppend(s, trace, asleep);
    if !Busy(Run(s, trace)) { assert trace + [] == trace; }
  }

  lemma FinishRun(s: Sys, env: Farewell, n: nat)
    ensures var a := Run(s, StopSteps(env, BeginFinish(s).ctl.nextId));
            Run(s, FinishSteps(s, env, n)) == Run(a, RoundsSteps(a, env, n))
  {
    hide Apply, Run;
    var stop := StopSteps(env, BeginFinish(s).ctl.nextId);
    RunAppend(s, stop, RoundsSteps(Run(s, stop), env, n));
  }
}
