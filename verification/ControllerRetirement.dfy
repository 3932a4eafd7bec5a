/** Failures reach everyone they concern, and whatever stops is gone after a bounded number of polls, outside
    of finish() too. */
module ControllerRetirement {
  import opened Wrappers
  import opened OutputTypes
  import opened ControllerModel
  import opened ControllerInvariant
  import opened ControllerEffects
  import opened ControllerRuns
  import opened ControllerRelease
  import opened ControllerPoll
  import opened ControllerProgress
  import opened ControllerLiveness
  import opened ControllerReports
  import opened ControllerMoves
  import opened ControllerPromotion
  import B = RuntimeBranch
  import C = ControlModel

  // ---- Failures are passed on ----

  /** A failed group fails every member that has not failed and is not being reclaimed, with its own failure,
      and no other output. */
  lemma FailureReachesMembers(s: Sys, g: nat, r: GroupReading, id: nat)
    requires Valid(s) && g in s.groups && id in s.outputs
    ensures var o, t := s.outputs[id], Apply(s, PollGroupStep(g, r));
            && id in t.outputs
            && if o.groupId == g && s.groups[g].branch.fault.Some? && o.branch.fault.None? && !Reclaimed(o.branch)
               then t.outputs[id] == o.(branch := o.branch.(state := B.Broken, fault := s.groups[g].branch.fault))
               else t.outputs[id] == o
  {
    hide Apply, Valid;
    StepMoves(s, PollGroupStep(g, r), id);
  }

  /** A failed branch is reported in its next poll, once, with its first failure. */
  lemma FailureIsTold(s: Sys, id: nat, r: OutputReading)
    requires Valid(s) && id in s.outputs && s.unpolled == {} && s.outputs[id].branch.fault.Some?
    requires !s.outputs[id].state.Failed?
    ensures var f, t := s.outputs[id].branch.fault.value, Apply(s, PollOutputStep(id, r));
            && Mentions(Said(s, PollOutputStep(id, r)), id, Failed) == 1
            && Rejection(id, f) in Said(s, PollOutputStep(id, r))
            && (id in t.outputs ==> t.outputs[id].state.Failed? && t.outputs[id].error == Some(f.error))
  {
    hide Apply, Valid, Looked, Said;
    FaultIsShown(s, id, r);
    StepMoves(s, PollOutputStep(id, r), id);
    PollSaysOfOutput(s, id, r);
    FaultIsSaid(s, id, r);
  }

  lemma FaultIsShown(s: Sys, id: nat, r: OutputReading)
    requires id in s.outputs && s.outputs[id].branch.fault.Some? && !s.outputs[id].state.Failed?
    ensures var p, f := Looked(s, id, r), s.outputs[id].branch.fault.value;
            p.state.Failed? && p.error == Some(f.error) && p.stage == f.stage
  {
  }

  lemma FaultIsSaid(s: Sys, id: nat, r: OutputReading)
    requires id in s.outputs && s.outputs[id].branch.fault.Some? && !s.outputs[id].state.Failed?
    ensures Mentions(SaidOfOutput(s, id, r), id, Failed) == 1
    ensures Rejection(id, s.outputs[id].branch.fault.value) in SaidOfOutput(s, id, r)
  {
    FaultIsShown(s, id, r);
    assert !BecomesRunning(s, PollOutputStep(id, r), id);
    hide Looked, Retires, Defers, BecomesRunning;
    var p := Looked(s, id, r);
    var down := SnapshotOf(id, p);
    var rest := if Retires(s, id, r) && !Defers(s, id, r) then [SnapshotOf(id, p.(state := Retired))] else [];
    assert SaidOfOutput(s, id, r) == [down] + rest;
    assert ([down] + rest)[1..] == rest && ([down] + rest)[0] == down;
    SilentMentions(rest, id, Failed);
  }

  /** An output that leaves reports Retired, at once or deferred, with the first failure of its branch, and
      without an error exactly if there was none. */
  lemma RetirementIsTold(s: Sys, id: nat, r: OutputReading)
    requires Valid(s) && AllAttributed(s.outputs) && id in s.outputs && s.unpolled == {} && Retires(s, id, r)
    ensures var t, fault := Apply(s, PollOutputStep(id, r)), Looked(s, id, r).branch.fault;
            var last := Looked(s, id, r).(state := Retired);
            && id !in t.outputs
            && last.error == (if fault.Some? then Some(fault.value.error) else None)
            && if Defers(s, id, r) then t.terminal == Some(SnapshotOf(id, last))
               else t.told.Then? && t.told.entry == SnapshotOf(id, last)
  {
    hide Apply, Valid, Looked, Retires, Defers, Said;
    AttributedError(s, id, r);
    StepMoves(s, PollOutputStep(id, r), id);
    GoneIsNotified(s, id, r);
    if !Defers(s, id, r) {
      StepSays(s, PollOutputStep(id, r));
      PollSaysOfOutput(s, id, r);
      LastIsTold(s, id, r);
    }
  }

  lemma AttributedError(s: Sys, id: nat, r: OutputReading)
    requires id in s.outputs && Attributed(s.outputs[id])
    ensures var p := Looked(s, id, r);
            p.error == if p.branch.fault.Some? then Some(p.branch.fault.value.error) else None
  {
  }

  lemma LastIsTold(s: Sys, id: nat, r: OutputReading)
    requires id in s.outputs && Retires(s, id, r) && !Defers(s, id, r)
    ensures var h := Tell(s.told, SaidOfOutput(s, id, r));
            h.Then? && h.entry == SnapshotOf(id, Looked(s, id, r).(state := Retired))
  {
    hide Looked, Retires, Defers, BecomesRunning, Tell;
    var last := SnapshotOf(id, Looked(s, id, r).(state := Retired));
    var front :=
      (if BecomesRunning(s, PollOutputStep(id, r), id) then [SnapshotOf(id, Promoted(s.outputs[id]))] else [])
      + (if Looked(s, id, r).state.Failed? && !s.outputs[id].state.Failed?
         then [SnapshotOf(id, Looked(s, id, r))] else []);
    assert SaidOfOutput(s, id, r) == front + [last];
    ToldTwice(s.told, front, [last]);
    ToldOne(Tell(s.told, front), last);
  }

  /** A group that retires with a failure passes it on to the notification that waits for it, if that had none:
      Failed is told, and Retired will report the failure. */
  lemma GroupFailureIsPassedOn(s: Sys, g: nat, r: GroupReading)
    requires Valid(s) && g in s.groups && s.groups[g].outputCount == 0 && s.terminal.Some? && s.terminalGroup == Some(g)
    requires Polled(s.groups[g], r).1
    ensures var t, fault := Apply(s, PollGroupStep(g, r)), Polled(s.groups[g], r).0.branch.fault;
            && g !in t.groups
            && if fault.Some? && s.terminal.value.error.None? then
                 && t.told == C.Then(s.told, Rejection(s.terminal.value.id, fault.value))
                 && t.terminal == Some(Dismissal(s.terminal.value.id, fault.value))
               else t.told == s.told && t.terminal == s.terminal
  {
    NoticeSaysRetired(s);
    hide Apply, Valid, Polled;
    var step := PollGroupStep(g, r);
    StepMovesGroup(s, step, g);
    StepSays(s, step);
    NoticeMoves(s, step);
    ToldNothing(s.told);
    if Amends(s, g, r) {
      ToldOne(s.told, Rejection(s.terminal.value.id, Polled(s.groups[g], r).0.branch.fault.value));
    }
  }

  lemma NoticeSaysRetired(s: Sys)
    requires Valid(s) && s.terminal.Some?
    ensures s.terminal.value.state.Retired?
  {
  }

  // ---- A stopping output leaves ----

  lemma MovedAhead(s: Sys, step: Step, id: nat)
    requires id in s.outputs
    ensures B.Ahead(s.outputs[id].branch, Moved(s, step, id).branch)
  {
    hide Looked;
    if step.PollOutputStep? { LookedAhead(s, id, step.outputReading); }
  }

  lemma LookedAhead(s: Sys, id: nat, r: OutputReading)
    requires id in s.outputs
    ensures B.Ahead(s.outputs[id].branch, Looked(s, id, r).branch)
  {
    hide BecomesRunning, Overdue, Before;
  }

  // The output is there throughout the run.
  predicate Remains(s: Sys, steps: seq<Step>, id: nat)
    decreases |steps|
  {
    id in s.outputs && (steps == [] || Remains(Apply(s, steps[0]), steps[1..], id))
  }

  lemma RemainsNow(s: Sys, steps: seq<Step>, id: nat)
    requires Remains(s, steps, id)
    ensures id in s.outputs
  {
  }

  lemma {:induction false} RemainsSplits(s: Sys, first: seq<Step>, rest: seq<Step>, id: nat)
    requires Remains(s, first + rest, id)
    ensures Remains(s, first, id) && Remains(Run(s, first), rest, id)
    decreases |first|
  {
    hide Apply;
    if first == [] {
      assert first + rest == rest;
    } else {
      assert (first + rest)[0] == first[0] && (first + rest)[1..] == first[1..] + rest;
      RemainsSplits(Apply(s, first[0]), first[1..], rest, id);
    }
  }

  lemma StepGoesAhead(s: Sys, step: Step, id: nat)
    requires Valid(s) && id in s.outputs && id in Apply(s, step).outputs
    ensures B.Ahead(s.outputs[id].branch, Apply(s, step).outputs[id].branch)
  {
    hide Apply, Valid, Moved;
    StepMoves(s, step, id);
    MovedAhead(s, step, id);
  }

  // A run with the output in it: its branch only goes on.
  lemma {:induction false} RemainingRun(s: Sys, steps: seq<Step>, id: nat, k: nat)
    requires Valid(s) && Remains(s, steps, id) && B.Stopping(s.outputs[id].branch)
    ensures var t := Run(s, steps);
            && Valid(t) && id in t.outputs && B.Stopping(t.outputs[id].branch)
            && B.Left(t.outputs[id].branch, k) <= B.Left(s.outputs[id].branch, k)
    decreases |steps|
  {
    hide Apply, Valid;
    if steps != [] {
      var t := Apply(s, steps[0]);
      RemainsNow(t, steps[1..], id);
      StepGoesAhead(s, steps[0], id);
      B.AheadLeavesLess(s.outputs[id].branch, t.outputs[id].branch, k);
      StepKeepsValid(s, steps[0]);
      RemainingRun(t, steps[1..], id, k);
    }
  }

  lemma BranchIsUp(s: Sys, id: nat)
    requires Valid(s) && id in s.outputs
    ensures !s.outputs[id].branch.state.Prepared? && id < s.ctl.nextId
  {
    assert OutputListed(s, id);
  }

  lemma PollLeavesLess(s: Sys, id: nat, r: OutputReading, k: nat)
    requires Valid(s) && s.unpolled == {} && id in s.outputs && B.Stopping(s.outputs[id].branch) && r.poll.patience <= k
    ensures var t := Apply(s, PollOutputStep(id, r));
            id in t.outputs ==> B.Left(t.outputs[id].branch, k) < B.Left(s.outputs[id].branch, k)
  {
    hide Valid, Examine, Retire, B.Left, B.Stopping;
    BranchIsUp(s, id);
    ExamineLeavesLess(s, id, r, k);
    RetireEffect(Examine(s, id, r).0, id);
  }

  lemma StopsStill(b: B.Branch, c: B.Branch)
    requires B.Ahead(b, c) && B.Stopping(b)
    ensures B.Stopping(c)
  {
  }

  lemma {:induction false} PolledRemaining(s: Sys, steps: seq<Step>, id: nat, r: OutputReading, k: nat)
    requires Valid(s) && s.unpolled == {} && Remains(s, steps, id) && B.Stopping(s.outputs[id].branch)
    requires r.poll.patience <= k && PollOutputStep(id, r) in steps && forall x :: x in steps ==> !x.Constructed?
    ensures var t := Run(s, steps);
            id in t.outputs && B.Left(t.outputs[id].branch, k) < B.Left(s.outputs[id].branch, k)
    decreases |steps|
  {
    hide Apply, Valid, B.Left, B.Stopping;
    var t := Apply(s, steps[0]);
    RemainsNow(t, steps[1..], id);
    StepGoesAhead(s, steps[0], id);
    StopsStill(s.outputs[id].branch, t.outputs[id].branch);
    StepKeepsValid(s, steps[0]);
    RemainingRun(t, steps[1..], id, k);
    if steps[0] == PollOutputStep(id, r) {
      PollLeavesLess(s, id, r, k);
    } else {
      B.AheadLeavesLess(s.outputs[id].branch, t.outputs[id].branch, k);
      StaysPolled(s, steps[0]);
      PolledRemaining(t, steps[1..], id, r, k);
    }
  }

  lemma RoundBringsOut(s: Sys, env: Surroundings, asleep: seq<Step>, id: nat, k: nat)
    requires Valid(s) && FairRound(env, asleep, k) && id in s.outputs && B.Stopping(s.outputs[id].branch)
    requires Remains(s, OneRound(s, env, asleep), id)
    ensures var t := Run(s, OneRound(s, env, asleep));
            && Valid(t) && id in t.outputs && B.Stopping(t.outputs[id].branch)
            && B.Left(t.outputs[id].branch, k) < B.Left(s.outputs[id].branch, k)
  {
    hide Apply, Run, Valid, Remains;
    var opening := Opening(s, env);
    var a := Run(s, opening);
    var middle := OutputSteps(env, a.ctl.nextId);
    var b := Run(a, middle);
    var rest := Conclusion(b, env) + asleep;
    assert OneRound(s, env, asleep) == opening + (middle + rest);
    RemainsSplits(s, opening, middle + rest, id);
    RemainsSplits(a, middle, rest, id);
    RunAppend(s, opening, middle + rest);
    RunAppend(a, middle, rest);
    RemainingRun(s, opening, id, k);
    RemainingRun(a, middle, id, k);
    RemainingRun(b, rest, id, k);
    OutputsComeAfterGroups(s, env);
    BranchIsUp(a, id);
    OutputStepsHas(env, a.ctl.nextId, id);
    PolledRemaining(a, middle, id, env.outputs(id), k);
  }

  lemma {:induction false} CannotRemain(s: Sys, env: Schedule, i: nat, n: nat, id: nat, k: nat)
    requires Valid(s) && FairSchedule(env, k) && id in s.outputs && B.Stopping(s.outputs[id].branch)
    requires B.Left(s.outputs[id].branch, k) < n
    ensures !Remains(s, ManyRounds(s, env, i, n), id)
    decreases n
  {
    hide Apply, Run, Valid, OneRound, Remains, FairRound;
    if Remains(s, ManyRounds(s, env, i, n), id) {
      var one := OneRound(s, env.polls(i), env.sleeps(i));
      var t := Run(s, one);
      RemainsSplits(s, one, ManyRounds(t, env, i + 1, n - 1), id);
      RoundBringsOut(s, env.polls(i), env.sleeps(i), id, k);
      CannotRemain(t, env, i + 1, n - 1, id, k);
    }
  }

  // At step i of the run the output leaves.
  ghost predicate LeavesAt(s: Sys, steps: seq<Step>, i: nat, id: nat) {
    i < |steps| && id in Run(s, steps[..i]).outputs && id !in Run(s, steps[..i + 1]).outputs
  }

  lemma {:induction false} NotRemainingLeaves(s: Sys, steps: seq<Step>, id: nat)
    requires id in s.outputs && !Remains(s, steps, id)
    ensures exists i: nat :: LeavesAt(s, steps, i, id)
    decreases |steps|
  {
    hide Apply;
    var t := Apply(s, steps[0]);
    if id in t.outputs {
      NotRemainingLeaves(t, steps[1..], id);
      var i: nat :| LeavesAt(t, steps[1..], i, id);
      RunLaterPrefix(s, steps, i);
      if i + 1 < |steps| - 1 { RunLaterPrefix(s, steps, i + 1); } else { WholeRun(s, steps, i); }
      assert LeavesAt(s, steps, i + 1, id);
    } else {
      assert steps[..0] == [] && steps[..1] == [steps[0]] && [steps[0]][1..] == [];
      assert Run(s, [steps[0]]) == Run(t, []);
      assert LeavesAt(s, steps, 0, id);
    }
  }

  lemma WholeRun(s: Sys, steps: seq<Step>, i: nat)
    requires steps != [] && i + 2 == |steps|
    ensures Run(s, steps[..i + 2]) == Run(Apply(s, steps[0]), steps[1..][..i + 1])
  {
    assert steps[..i + 2] == steps && steps[1..][..i + 1] == steps[1..];
  }

  /** Whatever stops retires, whether it was removed, failed or exited unasked: under fair polls a stopping
      output leaves in more rounds than its branch can still take polls. */
  lemma StoppingOutputRetires(s: Sys, env: Schedule, i: nat, n: nat, id: nat, k: nat)
    requires Valid(s) && FairSchedule(env, k) && id in s.outputs && B.Stopping(s.outputs[id].branch)
    requires B.Left(s.outputs[id].branch, k) < n
    ensures exists j: nat :: LeavesAt(s, ManyRounds(s, env, i, n), j, id)
  {
    hide Apply, Run, Valid, Remains, ManyRounds, FairSchedule;
    CannotRemain(s, env, i, n, id, k);
    NotRemainingLeaves(s, ManyRounds(s, env, i, n), id);
  }

  // ---- An unused group goes ----

  /** The poll of an unused group erases it, or leaves it draining, never to be joined again. */
  lemma UnusedGroupIsSpent(s: Sys, g: nat, r: GroupReading)
    requires Valid(s) && g in s.groups && s.groups[g].outputCount == 0
    ensures Spent(Apply(s, PollGroupStep(g, r)), g)
  {
    hide Valid, Apply, PollGroup, Polled, BringsGroup;
    GroupIsOld(s, g);
    PollGroupApplies(s, g, r);
    PollGroupEffect(s, g, r);
    GroupPollIsQuiet(s.groups[g], r);
  }

  lemma PollGroupApplies(s: Sys, g: nat, r: GroupReading)
    ensures Apply(s, PollGroupStep(g, r)) == PollGroup(s, g, r)
  {
    hide PollGroup;
  }

  lemma GroupIsOld(s: Sys, g: nat)
    requires Valid(s) && g in s.groups
    ensures g < s.nextGroup && !(s.prep.Some? && BringsGroup(s.prep.value) && s.prep.value.target == g)
    ensures !s.groups[g].branch.state.Prepared?
    ensures s.groups[g].draining ==> s.groups[g].outputCount == 0 && B.Stopping(s.groups[g].branch)
  {
  }

  lemma GroupGoesAhead(s: Sys, step: Step, g: nat, k: nat)
    requires Valid(s) && g in s.groups && g in Apply(s, step).groups
    ensures B.Left(Apply(s, step).groups[g].branch, k) <= B.Left(s.groups[g].branch, k)
  {
    hide Apply, Valid, MovedBranch;
    StepMovesGroup(s, step, g);
    BranchGoesAhead(s, step, g);
    B.AheadLeavesLess(s.groups[g].branch, MovedBranch(s, step, g), k);
  }

  lemma BranchGoesAhead(s: Sys, step: Step, g: nat)
    requires g in s.groups
    ensures B.Ahead(s.groups[g].branch, MovedBranch(s, step, g))
  {
    hide Polled;
    if step.PollGroupStep? && step.group == g && s.groups[g].outputCount == 0 {
      GroupPollIsQuiet(s.groups[g], step.groupReading);
    }
  }

  lemma {:induction false} SpentRun(s: Sys, steps: seq<Step>, g: nat, k: nat)
    requires Valid(s) && Spent(s, g) && g in s.groups
    ensures var t := Run(s, steps);
            && Valid(t) && Spent(t, g)
            && (g in t.groups ==> B.Left(t.groups[g].branch, k) <= B.Left(s.groups[g].branch, k))
    decreases |steps|
  {
    hide Apply, Valid, Spent;
    if steps != [] {
      var t := Apply(s, steps[0]);
      StepKeepsValid(s, steps[0]);
      StepKeepsSpent(s, steps[0], g);
      if g in t.groups {
        GroupGoesAhead(s, steps[0], g, k);
        SpentRun(t, steps[1..], g, k);
      } else {
        RunKeepsValid(t, steps[1..]);
        DrainingGroupIsNeverJoined(t, steps[1..], g);
      }
    }
  }

  lemma SpentPollLeavesLess(s: Sys, g: nat, r: GroupReading, k: nat)
    requires Valid(s) && Spent(s, g) && g in s.groups && r.poll.patience <= k
    ensures var t := Apply(s, PollGroupStep(g, r));
            g in t.groups ==> B.Left(t.groups[g].branch, k) < B.Left(s.groups[g].branch, k)
  {
    hide Valid, Apply, PollGroup, Polled, B.Left, B.Stopping;
    GroupIsOld(s, g);
    PollGroupApplies(s, g, r);
    PollGroupEffect(s, g, r);
    UnusedGroupLeavesLess(s.groups[g], r, k);
  }

  lemma {:induction false} PolledSpentRun(s: Sys, steps: seq<Step>, g: nat, r: GroupReading, k: nat)
    requires Valid(s) && Spent(s, g) && g in s.groups && r.poll.patience <= k && PollGroupStep(g, r) in steps
    ensures var t := Run(s, steps); g in t.groups ==> B.Left(t.groups[g].branch, k) < B.Left(s.groups[g].branch, k)
    decreases |steps|
  {
    hide Apply, Valid, Spent;
    var t := Apply(s, steps[0]);
    StepKeepsValid(s, steps[0]);
    StepKeepsSpent(s, steps[0], g);
    if g in t.groups {
      GroupGoesAhead(s, steps[0], g, k);
      SpentRun(t, steps[1..], g, k);
      if steps[0] == PollGroupStep(g, r) {
        SpentPollLeavesLess(s, g, r, k);
      } else {
        PolledSpentRun(t, steps[1..], g, r, k);
      }
    } else {
      DrainingGroupIsNeverJoined(t, steps[1..], g);
    }
  }

  lemma RoundDrainsGroup(s: Sys, env: Surroundings, asleep: seq<Step>, g: nat, k: nat)
    requires Valid(s) && FairRound(env, asleep, k) && Spent(s, g) && g in s.groups
    ensures var t := Run(s, OneRound(s, env, asleep));
            && Valid(t) && Spent(t, g)
            && (g in t.groups ==> B.Left(t.groups[g].branch, k) < B.Left(s.groups[g].branch, k))
  {
    hide Apply, Run, Valid, Spent;
    var first := PreparationSteps(env);
    var a := Run(s, first);
    var polls := GroupSteps(env, false, a.nextGroup);
    var b := Run(a, polls);
    var rest := OneRound(s, env, asleep)[|first + polls|..];
    assert OneRound(s, env, asleep) == first + (polls + rest);
    RunAppend(s, first, polls + rest);
    RunAppend(a, polls, rest);
    SpentRun(s, OneRound(s, env, asleep), g, k);
    SpentRun(s, first, g, k);
    if g in a.groups {
      GroupIsOld(a, g);
      GroupStepsHas(env, a.nextGroup, g);
      SpentRun(a, polls, g, k);
      PolledSpentRun(a, polls, g, env.groups(g), k);
      if g in b.groups { SpentRun(b, rest, g, k); } else { StaysAway(b, rest, g); }
    } else {
      StaysAway(a, polls + rest, g);
    }
  }

  lemma StaysAway(s: Sys, steps: seq<Step>, g: nat)
    requires Valid(s) && Spent(s, g) && g !in s.groups
    ensures g !in Run(s, steps).groups
  {
    DrainingGroupIsNeverJoined(s, steps, g);
  }

  /** A draining group is gone, for good, in more rounds than its branch can still take polls. */
  lemma {:induction false} SpentGroupGoes(s: Sys, env: Schedule, i: nat, n: nat, g: nat, k: nat)
    requires Valid(s) && FairSchedule(env, k) && Spent(s, g)
    requires g in s.groups ==> B.Left(s.groups[g].branch, k) < n
    ensures g !in Run(s, ManyRounds(s, env, i, n)).groups
    decreases n
  {
    hide Apply, Run, Valid, OneRound, Spent, FairRound;
    if g in s.groups {
      var one := OneRound(s, env.polls(i), env.sleeps(i));
      var t := Run(s, one);
      RoundDrainsGroup(s, env.polls(i), env.sleeps(i), g, k);
      RunAppend(s, one, ManyRounds(t, env, i + 1, n - 1));
      SpentGroupGoes(t, env, i + 1, n - 1, g, k);
    } else {
      StaysAway(s, ManyRounds(s, env, i, n), g);
    }
  }
}
