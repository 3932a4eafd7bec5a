/** A change gives the slot back after finitely many polls, outside of finish() too. */
module ControllerLiveness {
  import opened Wrappers
  import opened ControllerModel
  import opened ControllerInvariant
  import opened ControllerEffects
  import opened ControllerRuns
  import opened ControllerRelease
  import opened ControllerHolding
  import opened ControllerPoll
  import opened ControllerProgress
  import B = RuntimeBranch
  import X = PreparationExchange

  // ---- What is left to wait for ----

  function Until(deadline: nat, now: nat): nat {
    if now < deadline then deadline - now else 0
  }

  // The time until the change must have been decided.
  function TimeLeft(s: Sys, c: nat): nat {
    if Unsettled(s) then 1 + Until(s.prep.value.deadline, s.clock)
    else if c in s.outputs && !B.Stopping(s.outputs[c].branch) && s.outputs[c].deadline.Some? then
      1 + Until(s.outputs[c].deadline.value, s.clock)
    else 0
  }

  // The polls it takes after that, when no branch takes more than k to exit: the output, then its group.
  function PollsLeft(s: Sys, c: nat, k: nat): nat {
    if Unsettled(s) then 2 * (k + 5)
    else if c in s.outputs then k + 6 + B.Left(s.outputs[c].branch, k)
    else if s.terminalGroup.Some? && s.terminalGroup.value in s.groups then
      1 + B.Left(s.groups[s.terminalGroup.value].branch, k)
    else 0
  }

  // An upper bound on the rounds until the slot of c is free.
  function Bound(s: Sys, c: nat, k: nat): nat {
    PrepLeft(s, k) + TimeLeft(s, c) + PollsLeft(s, c, k)
  }

  lemma LeftIsBounded(b: B.Branch, k: nat)
    ensures B.Left(b, k) <= k + 3
  {
  }

  // While the slot is held nothing grows.
  ghost predicate NoMore(s: Sys, t: Sys, c: nat, k: nat) {
    && PrepGoesOn(s, t, k)
    && TimeLeft(t, c) <= TimeLeft(s, c) && PollsLeft(t, c, k) <= PollsLeft(s, c, k)
    && (c in s.outputs && c !in t.outputs ==> PollsLeft(t, c, k) < PollsLeft(s, c, k))
  }

  lemma HeldTakesNoMoreTime(s: Sys, t: Sys, c: nat)
    requires Held(s, t, c) && Slot(s) && s.changing == Some(c)
    ensures TimeLeft(t, c) <= TimeLeft(s, c)
  {
  }

  lemma HeldTakesNoMorePolls(s: Sys, t: Sys, c: nat, k: nat)
    requires Held(s, t, c) && Slot(s) && Slot(t) && s.changing == Some(c) && t.changing == Some(c)
    ensures PollsLeft(t, c, k) <= PollsLeft(s, c, k)
    ensures c in s.outputs && c !in t.outputs ==> PollsLeft(t, c, k) < PollsLeft(s, c, k)
  {
    if c in t.outputs {
      LeftIsBounded(t.outputs[c].branch, k);
      if c in s.outputs { B.AheadLeavesLess(s.outputs[c].branch, t.outputs[c].branch, k); }
    } else if t.terminalGroup.Some? && t.terminalGroup.value in t.groups {
      var g := t.terminalGroup.value;
      LeftIsBounded(t.groups[g].branch, k);
      if s.terminal.Some? { B.AheadLeavesLess(s.groups[g].branch, t.groups[g].branch, k); }
    }
  }

  lemma StepTakesNoMore(s: Sys, step: Step, c: nat, k: nat)
    requires Valid(s) && s.changing == Some(c) && Apply(s, step).changing == Some(c)
    ensures NoMore(s, Apply(s, step), c, k)
    ensures s.prep.Some? && Serves(step, s.prep.value.exchange, k) ==> PrepLeft(Apply(s, step), k) < PrepLeft(s, k)
  {
    hide Apply, Valid, Held;
    StepKeepsValid(s, step);
    StepIsSlotted(s);
    StepIsSlotted(Apply(s, step));
    SlottedPreparation(s);
    StepHolds(s, step, c);
    HeldTakesNoMoreTime(s, Apply(s, step), c);
    HeldTakesNoMorePolls(s, Apply(s, step), c, k);
    StepGoesOn(s, step, k);
  }

  lemma SlottedPreparation(s: Sys)
    requires Slot(s) && s.changing.Some?
    ensures Steady(s) && (s.prep.Some? ==> X.Valid(s.prep.value.exchange))
  {
  }

  // ---- The steps that bring the end closer ----

  // Looking at an output takes time.
  predicate Ticks(r: OutputReading) {
    r.first + r.second + r.third + r.fourth > 0
  }

  lemma OverdueStops(s: Sys, id: nat, r: OutputReading)
    requires id in s.outputs && s.outputs[id].state.Waiting?
    ensures var t := NoteFailure(PollBranch(FailOverdue(s, id, r), id, r).0, id);
            id in t.outputs && (B.Stopping(t.outputs[id].branch)
                                || (Before(s.clock + r.third, s.outputs[id].deadline) && t.clock == s.clock + r.third
                                     + r.fourth))
  {
  }

  // A waiting output whose poll neither frees the slot nor stops it still has time, and less of it.
  lemma WaitingOutputTicks(s: Sys, c: nat, r: OutputReading)
    requires c in s.outputs && s.outputs[c].state.Waiting? && s.changing == Some(c)
    requires Examine(s, c, r).0.changing == Some(c)
    ensures var t := Examine(s, c, r).0;
            c in t.outputs && (B.Stopping(t.outputs[c].branch)
                               || (Before(s.clock, s.outputs[c].deadline)
                                   && t.clock == s.clock + r.first + r.second + r.third + r.fourth))
  {
    hide Promote, FailOverdue, PollBranch, NoteFailure;
    PromoteIsQuiet(s, c, r);
    var a := Promote(s, c, r);
    OverdueIsQuiet(a, c, r);
    var b := FailOverdue(a, c, r);
    PollBranchIsQuiet(b, c, r);
    NoteIsQuiet(PollBranch(b, c, r).0, c);
    PromoteStates(s, c, r, c);
    PromoteShape(s, c, r);
    OverdueStops(a, c, r);
  }

  // What the poll of the changing output leaves to wait for.
  lemma OutputPollBrings(s: Sys, c: nat, r: OutputReading, k: nat)
    requires c in s.outputs && s.unpolled == {} && s.prep.None? && s.changing == Some(c) && Expected(s.outputs[c])
    requires !s.outputs[c].branch.state.Prepared? && r.poll.patience <= k && Ticks(r)
    ensures var t := PollOutput(s, c, r);
            || t.changing != Some(c)
            || c !in t.outputs
            || B.Left(t.outputs[c].branch, k) < B.Left(s.outputs[c].branch, k)
            || (!B.Stopping(s.outputs[c].branch) && (B.Stopping(t.outputs[c].branch)
                || (Before(s.clock, s.outputs[c].deadline) && s.clock < t.clock)))
  {
    hide Examine, Retire;
    var (t, retired) := Examine(s, c, r);
    ExamineIsQuiet(s, c, r);
    ExamineFrees(s, c, r);
    RetireEffect(t, c);
    if B.Stopping(s.outputs[c].branch) {
      ExamineLeavesLess(s, c, r, k);
    } else if t.changing == Some(c) {
      WaitingOutputTicks(s, c, r);
    } else if retired {
      RetireLeavesSlot(t, c);
    }
  }

  lemma OutputStepBrings(s: Sys, step: Step, c: nat, k: nat)
    requires Valid(s) && Awaited(s) && s.changing == Some(c) && Apply(s, step).changing == Some(c)
    requires c in s.outputs && s.prep.None? && s.unpolled == {}
    requires step.PollOutputStep? && step.id == c && step.outputReading.poll.patience <= k && Ticks(step.outputReading)
    ensures var t := Apply(s, step); TimeLeft(t, c) + PollsLeft(t, c, k) < TimeLeft(s, c) + PollsLeft(s, c, k)
  {
    hide Slot, Drawn, Listed, Awaited, Counted, PollOutput, Held;
    PolledOutput(s, c);
    StepTakesNoMore(s, step, c, k);
    StepHolds(s, step, c);
    OutputPollBrings(s, c, step.outputReading, k);
    BroughtCloser(s, Apply(s, step), c, k);
  }

  lemma PolledOutput(s: Sys, c: nat)
    requires Valid(s) && Awaited(s) && s.changing == Some(c) && c in s.outputs
    ensures !s.outputs[c].branch.state.Prepared? && Expected(s.outputs[c])
  {
  }

  lemma BroughtCloser(s: Sys, t: Sys, c: nat, k: nat)
    requires Held(s, t, c) && NoMore(s, t, c, k) && s.prep.None? && c in s.outputs && Expected(s.outputs[c])
    requires || c !in t.outputs
             || B.Left(t.outputs[c].branch, k) < B.Left(s.outputs[c].branch, k)
             || (!B.Stopping(s.outputs[c].branch) && (B.Stopping(t.outputs[c].branch)
                 || (Before(s.clock, s.outputs[c].deadline) && s.clock < t.clock)))
    ensures TimeLeft(t, c) + PollsLeft(t, c, k) < TimeLeft(s, c) + PollsLeft(s, c, k)
  {
  }

  lemma GroupStepBrings(s: Sys, step: Step, c: nat, k: nat)
    requires Valid(s) && Awaited(s) && s.changing == Some(c) && c !in s.outputs && s.prep.None?
    requires step.PollGroupStep? && s.terminalGroup == Some(step.group) && step.group in s.groups
    requires step.groupReading.poll.patience <= k
    ensures PollsLeft(Apply(s, step), c, k) < PollsLeft(s, c, k)
  {
    var g, r := step.group, step.groupReading;
    assert !s.groups[g].branch.state.Prepared? && (s.groups[g].draining ==> B.Stopping(s.groups[g].branch));
    hide Valid, PollGroup;
    PollGroupEffect(s, g, r);
    GroupPollHoldsNotice(s, g, r);
    UnusedGroupLeavesLess(s.groups[g], r, k);
  }

  // With nothing left to wait for, the notification is sent.
  lemma NothingLeftFrees(s: Sys, c: nat, k: nat)
    requires Slot(s) && s.changing == Some(c) && s.prep.None? && c !in s.outputs && PollsLeft(s, c, k) == 0
    ensures Apply(s, NotifyStep).changing.None?
  {
  }

  // ---- Runs that hold the slot ----

  predicate Holds(s: Sys, steps: seq<Step>, c: nat)
    decreases |steps|
  {
    s.changing == Some(c) && (steps == [] || Holds(Apply(s, steps[0]), steps[1..], c))
  }

  lemma {:induction false} HoldsSplits(s: Sys, first: seq<Step>, rest: seq<Step>, c: nat)
    requires Holds(s, first + rest, c)
    ensures Holds(s, first, c) && Holds(Run(s, first), rest, c)
    decreases |first|
  {
    hide Apply;
    if first == [] {
      assert first + rest == rest;
    } else {
      assert (first + rest)[0] == first[0] && (first + rest)[1..] == first[1..] + rest;
      HoldsSplits(Apply(s, first[0]), first[1..], rest, c);
    }
  }

  lemma NoMoreTwice(s: Sys, t: Sys, u: Sys, c: nat, k: nat)
    requires NoMore(s, t, c, k) && NoMore(t, u, c, k)
    ensures NoMore(s, u, c, k)
  {
    GoesOnTwice(s, t, u, k);
  }

  // A run that holds the slot: nothing grows.
  lemma {:induction false} HeldRun(s: Sys, steps: seq<Step>, c: nat, k: nat)
    requires Valid(s) && Awaited(s) && Holds(s, steps, c)
    ensures var t := Run(s, steps); Valid(t) && Awaited(t) && t.changing == Some(c) && NoMore(s, t, c, k)
    decreases |steps|
  {
    hide Apply, Valid, Awaited, PollsLeft, TimeLeft, PrepLeft;
    if steps != [] {
      var t := Apply(s, steps[0]);
      HoldsNow(t, steps[1..], c);
      StepKeepsValid(s, steps[0]);
      StepKeepsAwaited(s, steps[0]);
      StepTakesNoMore(s, steps[0], c, k);
      HeldRun(t, steps[1..], c, k);
      NoMoreTwice(s, t, Run(s, steps), c, k);
    }
  }

  lemma HoldsNow(s: Sys, steps: seq<Step>, c: nat)
    requires Holds(s, steps, c)
    ensures s.changing == Some(c)
  {
  }

  // ... and a step that serves the preparation as it stands brings it closer to its end.
  lemma {:induction false} ServedHeldRun(s: Sys, steps: seq<Step>, step: Step, c: nat, k: nat)
    requires Valid(s) && Awaited(s) && Holds(s, steps, c)
    requires s.prep.Some? && step in steps && Serves(step, s.prep.value.exchange, k)
    ensures PrepLeft(Run(s, steps), k) < PrepLeft(s, k)
    decreases |steps|
  {
    hide Apply, Valid, Awaited, PollsLeft, TimeLeft, Serves;
    var t := Apply(s, steps[0]);
    HoldsNow(t, steps[1..], c);
    StepKeepsValid(s, steps[0]);
    StepKeepsAwaited(s, steps[0]);
    StepTakesNoMore(s, steps[0], c, k);
    if PrepLeft(t, k) < PrepLeft(s, k) {
      HeldRun(t, steps[1..], c, k);
    } else {
      assert steps[0] != step;
      ServedHeldRun(t, steps[1..], step, c, k);
    }
  }

  // ... and so does the poll of the output,
  lemma {:induction false} PolledHeldRun(s: Sys, steps: seq<Step>, step: Step, c: nat, k: nat)
    requires Valid(s) && Awaited(s) && Holds(s, steps, c) && s.prep.None? && s.unpolled == {} && c in s.outputs
    requires step in steps && (forall x :: x in steps ==> !x.Constructed?)
    requires step.PollOutputStep? && step.id == c && step.outputReading.poll.patience <= k && Ticks(step.outputReading)
    ensures var t := Run(s, steps); TimeLeft(t, c) + PollsLeft(t, c, k) < TimeLeft(s, c) + PollsLeft(s, c, k)
    decreases |steps|
  {
    hide Apply, Valid, Awaited, PollsLeft, TimeLeft;
    var t := Apply(s, steps[0]);
    HoldsNow(t, steps[1..], c);
    StepKeepsValid(s, steps[0]);
    StepKeepsAwaited(s, steps[0]);
    StepTakesNoMore(s, steps[0], c, k);
    HeldRun(t, steps[1..], c, k);
    if c in t.outputs {
      if steps[0] == step {
        OutputStepBrings(s, step, c, k);
      } else {
        StaysPolled(s, steps[0]);
        PolledHeldRun(t, steps[1..], step, c, k);
      }
    }
  }

  // ... or of the group.
  lemma {:induction false} GroupPolledHeldRun(s: Sys, steps: seq<Step>, step: Step, c: nat, k: nat)
    requires Valid(s) && Awaited(s) && Holds(s, steps, c) && s.prep.None? && c !in s.outputs
    requires s.terminalGroup.Some? && s.terminalGroup.value in s.groups && step in steps
    requires step.PollGroupStep? && step.group == s.terminalGroup.value && step.groupReading.poll.patience <= k
    ensures PollsLeft(Run(s, steps), c, k) < PollsLeft(s, c, k)
    decreases |steps|
  {
    hide Apply, Valid, Awaited, TimeLeft, PollsLeft;
    var t := Apply(s, steps[0]);
    HoldsNow(t, steps[1..], c);
    StepKeepsValid(s, steps[0]);
    StepKeepsAwaited(s, steps[0]);
    StepTakesNoMore(s, steps[0], c, k);
    HeldRun(t, steps[1..], c, k);
    if steps[0] == step {
      GroupStepBrings(s, step, c, k);
    } else {
      StillDeferred(s, steps[0], c, k);
      if t.terminalGroup.value in t.groups { GroupPolledHeldRun(t, steps[1..], step, c, k); }
    }
  }

  // Without the output, what is awaited stays the same group, or nothing.
  lemma StillDeferred(s: Sys, step: Step, c: nat, k: nat)
    requires Valid(s) && s.changing == Some(c) && Apply(s, step).changing == Some(c)
    requires s.prep.None? && c !in s.outputs && s.terminalGroup.Some? && s.terminalGroup.value in s.groups
    ensures var t := Apply(s, step);
            && t.prep.None? && c !in t.outputs && t.terminalGroup == s.terminalGroup
            && (t.terminalGroup.value !in t.groups ==> PollsLeft(t, c, k) < PollsLeft(s, c, k))
  {
    StepIsSlotted(s);
    hide Apply, Valid;
    StepHolds(s, step, c);
  }

  // ---- Rounds ----

  // Every round of the session: what its poll reads, and what the other threads do until the next.
  datatype Schedule = Schedule(polls: nat -> Surroundings, sleeps: nat -> seq<Step>)

  // Branches exit within k polls of being stopped, the worker gets its turns, and time passes.
  ghost predicate FairRound(env: Surroundings, asleep: seq<Step>, k: nat) {
    Proper(env) && ForeignOnly(asleep) && Fair(env, asleep, k) && forall id :: Ticks(env.outputs(id))
  }

  ghost predicate FairSchedule(env: Schedule, k: nat) {
    forall i :: FairRound(env.polls(i), env.sleeps(i), k)
  }

  function OneRound(s: Sys, env: Surroundings, asleep: seq<Step>): seq<Step> {
    PollTrace(s, env) + asleep
  }

  // n rounds, from round i on.
  function ManyRounds(s: Sys, env: Schedule, i: nat, n: nat): seq<Step>
    decreases n
  {
    if n == 0 then []
    else
      var one := OneRound(s, env.polls(i), env.sleeps(i));
      one + ManyRounds(Run(s, one), env, i + 1, n - 1)
  }

  lemma PreparationComesCloser(s: Sys, env: Surroundings, asleep: seq<Step>, c: nat, k: nat)
    requires Valid(s) && Awaited(s) && FairRound(env, asleep, k) && Holds(s, OneRound(s, env, asleep), c)
             && s.prep.Some?
    ensures PrepLeft(Run(s, OneRound(s, env, asleep)), k) < PrepLeft(s, k)
  {
    hide Run, Valid, Awaited, PollTrace, Holds;
    StepsInTrace(s, env, asleep);
    var x := s.prep.value.exchange;
    var r :| Work(r) in asleep && r.patience <= k;
    var step := if x.stage.Planned? then Planned(env.planned) else if x.stage.Constructed? then
                Constructed(env.constructed)
                else if x.worker.Done? then Collect else Work(r);
    ServedHeldRun(s, OneRound(s, env, asleep), step, c, k);
  }

  lemma OutputComesCloser(s: Sys, env: Surroundings, asleep: seq<Step>, c: nat, k: nat)
    requires Valid(s) && Awaited(s) && FairRound(env, asleep, k) && Holds(s, OneRound(s, env, asleep), c)
    requires s.prep.None? && c in s.outputs
    ensures var t := Run(s, OneRound(s, env, asleep));
            TimeLeft(t, c) + PollsLeft(t, c, k) < TimeLeft(s, c) + PollsLeft(s, c, k)
  {
    hide Apply, Run, Valid, Awaited, Holds, TimeLeft, PollsLeft;
    var opening := Opening(s, env);
    var a := Run(s, opening);
    var middle := OutputSteps(env, a.ctl.nextId);
    var b := Run(a, middle);
    var rest := Conclusion(b, env) + asleep;
    assert OneRound(s, env, asleep) == opening + (middle + rest);
    HoldsSplits(s, opening, middle + rest, c);
    HoldsSplits(a, middle, rest, c);
    RunAppend(s, opening, middle + rest);
    RunAppend(a, middle, rest);
    HeldRun(s, opening, c, k);
    HeldRun(a, middle, c, k);
    HeldRun(b, rest, c, k);
    if c in a.outputs {
      OutputsComeAfterGroups(s, env);
      OutputIsNumbered(a, c);
      OutputStepsHas(env, a.ctl.nextId, c);
      PolledHeldRun(a, middle, PollOutputStep(c, env.outputs(c)), c, k);
    }
  }

  lemma OutputIsNumbered(s: Sys, id: nat)
    requires Valid(s) && id in s.outputs
    ensures id < s.ctl.nextId
  {
    assert OutputListed(s, id);
  }

  lemma GroupIsNumbered(s: Sys, g: nat)
    requires Valid(s) && g in s.groups
    ensures g < s.nextGroup
  {
  }

  lemma GroupComesCloser(s: Sys, env: Surroundings, asleep: seq<Step>, c: nat, k: nat)
    requires Valid(s) && Awaited(s) && FairRound(env, asleep, k) && Holds(s, OneRound(s, env, asleep), c)
    requires s.prep.None? && c !in s.outputs && s.terminal.Some?
    requires s.terminalGroup.Some? && s.terminalGroup.value in s.groups
    ensures PollsLeft(Run(s, OneRound(s, env, asleep)), c, k) < PollsLeft(s, c, k)
  {
    hide Apply, Run, Valid, Awaited, Holds, TimeLeft, PollsLeft;
    var g := s.terminalGroup.value;
    var first := PreparationSteps(env);
    var a := Run(s, first);
    var polls := GroupSteps(env, false, a.nextGroup);
    var b := Run(a, polls);
    var rest := OneRound(s, env, asleep)[|first + polls|..];
    assert OneRound(s, env, asleep) == first + (polls + rest);
    HoldsSplits(s, first, polls + rest, c);
    HoldsSplits(a, polls, rest, c);
    RunAppend(s, first, polls + rest);
    RunAppend(a, polls, rest);
    HeldRun(s, first, c, k);
    HeldRun(a, polls, c, k);
    HeldRun(b, rest, c, k);
    DeferredRun(s, first, c, k);
    if g in a.groups {
      GroupIsNumbered(a, g);
      GroupStepsHas(env, a.nextGroup, g);
      GroupPolledHeldRun(a, polls, PollGroupStep(g, env.groups(g)), c, k);
    }
  }

  // Over a run that holds the slot, the same group is awaited, or nothing is.
  lemma {:induction false} DeferredRun(s: Sys, steps: seq<Step>, c: nat, k: nat)
    requires Valid(s) && Awaited(s) && Holds(s, steps, c) && s.prep.None? && c !in s.outputs && s.terminal.Some?
    ensures var t := Run(s, steps);
            && t.prep.None? && c !in t.outputs && t.terminal.Some? && t.terminalGroup == s.terminalGroup
            && (t.terminalGroup.Some? && t.terminalGroup.value in t.groups ==> t.terminalGroup.value in s.groups)
            && (s.terminalGroup.Some? && s.terminalGroup.value in s.groups && s.terminalGroup.value !in t.groups ==>
                  PollsLeft(t, c, k) < PollsLeft(s, c, k))
    decreases |steps|
  {
    hide Apply, Valid, Awaited;
    if steps != [] {
      var t := Apply(s, steps[0]);
      HoldsNow(t, steps[1..], c);
      StepIsSlotted(s);
      StepHolds(s, steps[0], c);
      StepKeepsValid(s, steps[0]);
      StepKeepsAwaited(s, steps[0]);
      DeferredRun(t, steps[1..], c, k);
    }
  }

  // With no group to wait for, the first notification of the poll frees the slot.
  lemma NoticeIsSent(s: Sys, env: Surroundings, asleep: seq<Step>, c: nat, k: nat)
    requires Valid(s) && Awaited(s) && s.changing == Some(c) && s.prep.None? && c !in s.outputs && s.terminal.Some?
    requires s.terminalGroup.Some? ==> s.terminalGroup.value !in s.groups
    ensures !Holds(s, OneRound(s, env, asleep), c)
  {
    hide Apply, Run, Valid, Awaited;
    if Holds(s, OneRound(s, env, asleep), c) {
      var first := PreparationSteps(env);
      var before := first + GroupSteps(env, false, Run(s, first).nextGroup) + env.others(5, 0);
      var rest := OneRound(s, env, asleep)[|before + [NotifyStep]|..];
      assert OneRound(s, env, asleep) == before + ([NotifyStep] + rest);
      HoldsSplits(s, before, [NotifyStep] + rest, c);
      HeldRun(s, before, c, k);
      DeferredRun(s, before, c, k);
      var t := Run(s, before);
      StepIsSlotted(t);
      HoldsNext(t, NotifyStep, rest, c);
      NothingLeftFrees(t, c, k);
    }
  }

  lemma HoldsNext(s: Sys, step: Step, rest: seq<Step>, c: nat)
    requires Holds(s, [step] + rest, c)
    ensures Apply(s, step).changing == Some(c)
  {
    hide Apply;
    assert ([step] + rest)[0] == step;
    HoldsNow(Apply(s, step), ([step] + rest)[1..], c);
  }

  lemma SlottedChange(s: Sys, c: nat)
    requires Valid(s) && s.changing == Some(c) && s.prep.None? && c !in s.outputs
    ensures s.terminal.Some?
  {
  }

  /** Every fair round that does not free the slot lowers the bound on the rounds it can still take. */
  lemma RoundComesCloser(s: Sys, env: Surroundings, asleep: seq<Step>, c: nat, k: nat)
    requires Valid(s) && Awaited(s) && FairRound(env, asleep, k) && Holds(s, OneRound(s, env, asleep), c)
    ensures var t := Run(s, OneRound(s, env, asleep));
            Valid(t) && Awaited(t) && t.changing == Some(c) && Bound(t, c, k) < Bound(s, c, k)
  {
    hide Apply, Run, Valid, Awaited, OneRound, TimeLeft, PollsLeft;
    HoldsNow(s, OneRound(s, env, asleep), c);
    HeldRun(s, OneRound(s, env, asleep), c, k);
    if s.prep.Some? {
      PreparationComesCloser(s, env, asleep, c, k);
    } else if c in s.outputs {
      OutputComesCloser(s, env, asleep, c, k);
    } else {
      SlottedChange(s, c);
      if s.terminalGroup.Some? && s.terminalGroup.value in s.groups {
        GroupComesCloser(s, env, asleep, c, k);
      } else {
        NoticeIsSent(s, env, asleep, c, k);
      }
    }
  }

  lemma {:induction false} SlotIsNotHeld(s: Sys, env: Schedule, i: nat, n: nat, c: nat, k: nat)
    requires Valid(s) && Awaited(s) && FairSchedule(env, k) && Bound(s, c, k) < n
    ensures !Holds(s, ManyRounds(s, env, i, n), c)
    decreases n
  {
    hide Apply, Run, Valid, Awaited, OneRound, Bound, Holds, FairRound;
    if Holds(s, ManyRounds(s, env, i, n), c) {
      var one := OneRound(s, env.polls(i), env.sleeps(i));
      var t := Run(s, one);
      HoldsSplits(s, one, ManyRounds(t, env, i + 1, n - 1), c);
      RoundComesCloser(s, env.polls(i), env.sleeps(i), c, k);
      SlotIsNotHeld(t, env, i + 1, n - 1, c, k);
    }
  }

  lemma {:induction false} NotHeldMeansFreed(s: Sys, steps: seq<Step>, c: nat)
    requires Valid(s) && s.changing == Some(c) && !Holds(s, steps, c)
    ensures exists i: nat :: FreesAt(s, steps, i, c)
    decreases |steps|
  {
    hide Apply, Valid, BecomesRunning, Released;
    var t := Apply(s, steps[0]);
    if t.changing == Some(c) {
      StepKeepsValid(s, steps[0]);
      NotHeldMeansFreed(t, steps[1..], c);
      var i: nat :| FreesAt(t, steps[1..], i, c);
      RunLaterPrefix(s, steps, i);
      assert FreesAt(s, steps, i + 1, c);
    } else {
      SlotFreeMeansReleased(s, steps[0], c);
      assert steps[..0] == [];
      assert FreesAt(s, steps, 0, c);
    }
  }

  /** The busy slot never stays busy: whatever else happens, if branches exit within k polls of being
      stopped, the worker gets its turns and time passes, then in more than Bound(s, c, k) rounds there is
      a step at which the slot is given back, because the output has just become Running or because
      nothing is left of the change. */
  lemma EveryChangeEnds(s: Sys, env: Schedule, i: nat, n: nat, c: nat, k: nat)
    requires Valid(s) && Awaited(s) && FairSchedule(env, k) && s.changing == Some(c) && Bound(s, c, k) < n
    ensures exists j: nat :: FreesAt(s, ManyRounds(s, env, i, n), j, c)
  {
    hide Apply, Run, Valid, Awaited, Holds, ManyRounds, Bound, FairSchedule;
    SlotIsNotHeld(s, env, i, n, c, k);
    NotHeldMeansFreed(s, ManyRounds(s, env, i, n), c);
  }
}
