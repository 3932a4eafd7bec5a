/** What finish() does to the outputs it finds, and what it returns. */
module ControllerOutcome {
  import opened Wrappers
  import opened OutputTypes
  import opened ControllerModel
  import opened ControllerInvariant
  import opened ControllerEffects
  import opened ControllerRuns
  import opened ControllerPoll
  import opened ControllerFinish
  import opened ControllerReports
  import opened ControllerMoves
  import opened ControllerPromotion
  import opened ControllerRemoval
  import opened ControllerAgreement
  import B = RuntimeBranch

  // ---- Telling the outputs to stop ----

  // A step, while finish() tells the outputs to stop, that is not meant for output id.
  predicate Aside(step: Step, id: nat) {
    Foreign(step) || step.FinishStep? || (step.FinishOutputStep? && step.id != id)
  }

  // No worker of output id fails meanwhile.
  ghost predicate NoneFails(steps: seq<Step>, id: nat) {
    forall step :: step in steps ==> !(step.OutputFails? && step.id == id)
  }

  // p is o, perhaps with a failure recorded by its own workers.
  predicate OnlyRecorded(o: Output, p: Output) {
    && p == o.(branch := p.branch) && p.branch.state == o.branch.state
    && (o.branch.fault.Some? ==> p.branch.fault == o.branch.fault)
  }

  lemma AsideMoves(s: Sys, step: Step, id: nat)
    requires id in s.outputs && Aside(step, id)
    ensures var o, p := s.outputs[id], Moved(s, step, id);
            && OnlyRecorded(o, p) && !Goes(s, step, id)
            && (!(step.OutputFails? && step.id == id) ==> p.branch.fault == o.branch.fault)
  {
  }

  lemma {:induction false} AsideRun(s: Sys, steps: seq<Step>, id: nat)
    requires Valid(s) && id in s.outputs && forall step :: step in steps ==> Aside(step, id)
    ensures var t := Run(s, steps);
            && Valid(t) && id in t.outputs && OnlyRecorded(s.outputs[id], t.outputs[id])
            && (NoneFails(steps, id) ==> t.outputs[id].branch.fault == s.outputs[id].branch.fault)
    decreases |steps|
  {
    hide Apply, Valid, Moved;
    if steps != [] {
      assert steps[0] in steps;
      AsideMoves(s, steps[0], id);
      StepMoves(s, steps[0], id);
      StepKeepsValid(s, steps[0]);
      AsideRun(Apply(s, steps[0]), steps[1..], id);
    }
  }

  lemma {:induction false} EarlierStopsAside(env: Farewell, n: nat, id: nat)
    requires n <= id && forall j :: ForeignOnly(env.others(j))
    ensures forall step :: step in StopSteps(env, n) ==> Aside(step, id)
  {
    if n > 0 {
      assert ForeignOnly(env.others(n - 1));
      EarlierStopsAside(env, n - 1, id);
    }
  }

  // The steps before and after output id is told to stop.
  lemma {:induction false} StopsOnce(env: Farewell, n: nat, id: nat) returns (after: seq<Step>)
    requires id < n && forall j :: ForeignOnly(env.others(j))
    ensures StopSteps(env, n) == StopSteps(env, id) + env.others(id) + [StopStep(env, id)] + after
    ensures forall step :: step in after ==> Aside(step, id)
  {
    if n == id + 1 {
      after := [];
    } else {
      assert ForeignOnly(env.others(n - 1));
      var less := StopsOnce(env, n - 1, id);
      after := less + env.others(n - 1) + [StopStep(env, n - 1)];
    }
  }

  lemma {:induction false} StopStepsFinish(s: Sys, env: Farewell, n: nat)
    ensures Run(s, StopSteps(env, n)).finishing
  {
    hide Apply, Run;
    if n == 0 {
      StopStarts(s, env);
      FinishIsQuiet(s);
    } else {
      StopStepsFinish(s, env, n - 1);
      StopGoesOn(s, env, n - 1);
      var t := Run(s, StopSteps(env, n - 1));
      RunKeepsFinishing(t, env.others(n - 1));
      FinishingStepShrinks(Run(t, env.others(n - 1)), StopStep(env, n - 1));
    }
  }

  // No worker of output id fails while finish() tells the outputs to stop.
  ghost predicate Spared(env: Farewell, id: nat) {
    forall j :: NoneFails(env.others(j), id)
  }

  lemma {:induction false} SparedStops(env: Farewell, n: nat, id: nat)
    requires Spared(env, id)
    ensures NoneFails(StopSteps(env, n), id)
  {
    if n > 0 { SparedStops(env, n - 1, id); }
  }

  // What finish() makes of an output it finds: with a failure of the session its branch has failed, for that
  // reason unless it had another one before; without one a running branch is closing.
  ghost predicate Told(o: Output, p: Output, cause: Option<Fault>, closing: Option<Fault>, spared: bool) {
    if cause.Some? then
      && (Reclaimed(o.branch) ==> p.branch.state == o.branch.state)
      && (!Reclaimed(o.branch) ==> p.branch.state.Broken? && p.branch.fault.Some?)
      && (o.branch.fault.Some? ==> p.branch.fault == o.branch.fault)
      && (o.branch.fault.None? && spared ==> p.branch.fault == if Reclaimed(o.branch) then None else cause)
      && p.state == o.state
    else
      && (o.branch.state.Active? && closing.None? ==> p.branch.state.Closing? && p.state.Draining?)
      && (closing.None? && spared ==> p.branch.fault == o.branch.fault)
      && (!o.branch.state.Active? ==> p.state == o.state && p.branch.state == o.branch.state)
  }

  lemma StopTells(s: Sys, step: Step, o: Output, q: Output, spared: bool)
    requires step.FinishOutputStep? && s.finishing && step.id in s.outputs && OnlyRecorded(o, s.outputs[step.id])
    requires spared ==> s.outputs[step.id].branch.fault == o.branch.fault
    requires step.id in Apply(s, step).outputs && OnlyRecorded(Apply(s, step).outputs[step.id], q)
    requires spared ==> q.branch.fault == Apply(s, step).outputs[step.id].branch.fault
    ensures Told(o, q, step.cause, step.closing, spared)
  {
    hide Apply;
    StopMeans(s, step.id, step.cause, step.generation, step.closing);
  }

  /** When finish() has told the outputs to stop, each one it found is still there and as stated. */
  lemma EveryOutputIsTold(s: Sys, env: Farewell, n: nat, id: nat)
    requires Valid(s) && id in s.outputs && id < n && forall j :: ForeignOnly(env.others(j))
    ensures var t := Run(s, StopSteps(env, n));
            && id in t.outputs
            && Told(s.outputs[id], t.outputs[id], env.cause, env.closings(id), Spared(env, id))
  {
    hide Apply, Run, Valid, Told;
    var after := StopsOnce(env, n, id);
    var before, step := StopSteps(env, id) + env.others(id), StopStep(env, id);
    var a := Run(s, before);
    RunAppend(s, StopSteps(env, id), env.others(id));
    StopStepsFinish(s, env, id);
    RunKeepsFinishing(Run(s, StopSteps(env, id)), env.others(id));
    EarlierStopsAside(env, id, id);
    assert ForeignOnly(env.others(id));
    AsideRun(s, before, id);
    StopMeans(a, id, step.cause, step.generation, step.closing);
    var b := Apply(a, step);
    RunThen(s, before, [], step);
    assert before + [] + [step] == before + [step];
    RunNothing(a);
    RunAppend(s, before + [step], after);
    StepKeepsValid(a, step);
    AsideRun(b, after, id);
    if Spared(env, id) {
      SparedStops(env, id, id);
      SparedStops(env, n, id);
      assert forall x :: x in after ==> x in StopSteps(env, n);
    }
    StopTells(a, step, s.outputs[id], Run(b, after).outputs[id], Spared(env, id));
  }

  lemma AllAreTold(s: Sys, env: Farewell)
    requires Valid(s) && forall j :: ForeignOnly(env.others(j))
    ensures var t := Run(s, StopSteps(env, BeginFinish(s).ctl.nextId));
            forall id :: id in s.outputs ==>
              && id in t.outputs
              && Told(s.outputs[id], t.outputs[id], env.cause, env.closings(id), Spared(env, id))
  {
    hide Run, Valid, BeginFinish, StopSteps, Told, Spared;
    forall id | id in s.outputs
      ensures var t := Run(s, StopSteps(env, BeginFinish(s).ctl.nextId));
              && id in t.outputs
              && Told(s.outputs[id], t.outputs[id], env.cause, env.closings(id), Spared(env, id))
    {
      OutputStaysNumbered(s, id);
      EveryOutputIsTold(s, env, BeginFinish(s).ctl.nextId, id);
    }
  }

  // ---- A failed output makes finish() fail ----

  // While finishing: an output that is shown Failed has been noted.
  ghost predicate Remembered(s: Sys, id: nat) {
    s.failure.Some? || (id in s.outputs && s.outputs[id].branch.fault.Some? && !s.outputs[id].state.Failed?)
  }

  lemma LookedNotes(s: Sys, id: nat, r: OutputReading)
    requires id in s.outputs && s.unpolled == {} && s.outputs[id].branch.fault.Some? && !s.outputs[id].state.Failed?
    ensures Noted(s, PollOutputStep(id, r)) == Some(s.outputs[id].branch.fault.value.error)
  {
    hide Examine;
    ExamineLooks(s, id, r);
    FaultShows(s, id, r);
  }

  lemma FaultShows(s: Sys, id: nat, r: OutputReading)
    requires id in s.outputs && s.outputs[id].branch.fault.Some? && !s.outputs[id].state.Failed?
    ensures var p := Looked(s, id, r); p.state.Failed? && p.error == Some(s.outputs[id].branch.fault.value.error)
  {
  }

  lemma FaultStays(s: Sys, step: Step, id: nat)
    requires id in s.outputs && s.outputs[id].branch.fault.Some? && !s.outputs[id].state.Failed?
    ensures Moved(s, step, id).branch.fault.Some?
    ensures !(step.PollOutputStep? && step.id == id && s.unpolled == {}) ==> !Moved(s, step, id).state.Failed?
  {
  }

  lemma StepRemembers(s: Sys, step: Step, id: nat)
    requires Valid(s) && s.finishing && Remembered(s, id)
    ensures Remembered(Apply(s, step), id)
  {
    hide Apply, Valid, Noted, Moved;
    StepNotes(s, step);
    if s.failure.None? {
      StepMoves(s, step, id);
      FaultStays(s, step, id);
      if step.PollOutputStep? && step.id == id && s.unpolled == {} { LookedNotes(s, id, step.outputReading); }
    }
  }

  lemma {:induction false} RunRemembers(s: Sys, steps: seq<Step>, id: nat)
    requires Valid(s) && s.finishing && Remembered(s, id)
    ensures Remembered(Run(s, steps), id)
    decreases |steps|
  {
    hide Apply, Valid, Remembered;
    if steps != [] {
      StepRemembers(s, steps[0], id);
      StepKeepsValid(s, steps[0]);
      FinishingStepShrinks(s, steps[0]);
      RunRemembers(Apply(s, steps[0]), steps[1..], id);
    }
  }

  // An output finish() finds that is neither being reclaimed nor shown Failed already.
  predicate Alive(o: Output) {
    !Reclaimed(o.branch) && !o.state.Failed?
  }

  /** Given a failure of the session and an output that is alive, finish() returns a failure: every live output
      is failed, and none leaves without its failure being noted. */
  lemma CauseIsReturned(s: Sys, env: Farewell, rounds: nat, id: nat)
    requires Valid(s) && env.cause.Some? && id in s.outputs && Alive(s.outputs[id])
    requires forall j :: ForeignOnly(env.others(j))
    requires Run(s, FinishSteps(s, env, rounds)).outputs == map[]
    ensures Run(s, FinishSteps(s, env, rounds)).failure.Some?
  {
    hide Apply, Run, Valid, StopSteps, RoundsSteps, BeginFinish;
    var n := BeginFinish(s).ctl.nextId;
    OutputStaysNumbered(s, id);
    var a := Run(s, StopSteps(env, n));
    EveryOutputIsTold(s, env, n, id);
    StopStepsFinish(s, env, n);
    RunKeepsValid(s, StopSteps(env, n));
    FinishRun(s, env, rounds);
    RunRemembers(a, RoundsSteps(a, env, rounds), id);
  }

  lemma OutputStaysNumbered(s: Sys, id: nat)
    requires Valid(s) && id in s.outputs
    ensures id < BeginFinish(s).ctl.nextId
  {
    hide BeginFinish, Valid;
    FinishKeepsValid(s);
    FinishIsQuiet(s);
    NumberedIn(BeginFinish(s), id);
  }

  lemma NumberedIn(s: Sys, id: nat)
    requires Valid(s) && id in s.outputs
    ensures id < s.ctl.nextId
  {
    assert OutputListed(s, id);
  }

  // ---- Nothing else fails ----

  // The step records no failure, and refuses no drain.
  predicate Blameless(step: Step) {
    match step
    case OutputFails(_, _) => false
    case GroupFails(_, _, _) => false
    case FinishOutputStep(_, _, _, closing) => closing.None?
    case PollOutputStep(_, r) => Smooth(r)
    case PollGroupStep(_, r) => r.closing.None? && r.poll.silence.None? && r.after.None?
    case _ => true
  }

  // No branch has failed.
  ghost predicate Unfailed(s: Sys) {
    && (forall id :: id in s.outputs ==> s.outputs[id].branch.fault.None?)
    && (forall g :: g in s.groups ==> s.groups[g].branch.fault.None?)
  }

  // Only the session's own failure has been recorded, or noted.
  ghost predicate OnlyBlames(s: Sys, c: Option<Fault>) {
    && (forall id :: id in s.outputs ==> s.outputs[id].branch.fault.None? || s.outputs[id].branch.fault == c)
    && (forall g :: g in s.groups ==> s.groups[g].branch.fault.None?)
    && (s.failure.None? || (c.Some? && s.failure == Some(c.value.error)))
  }

  // The step can blame an output only for c: it stops it for c, or finds it being reclaimed.
  ghost predicate BlamesFor(s: Sys, step: Step, c: Option<Fault>) {
    && Blameless(step)
    && (step.FinishOutputStep? && step.id in s.outputs ==>
          step.cause.None? || step.cause == c || Reclaimed(s.outputs[step.id].branch))
    && (step.PollOutputStep? && step.id in s.outputs ==> B.Stopping(s.outputs[step.id].branch))
  }

  lemma StoppingIsNotLate(s: Sys, id: nat, r: OutputReading)
    requires id in s.outputs && B.Stopping(s.outputs[id].branch) && Consistent(s.outputs[id]) && Smooth(r)
    ensures Looked(s, id, r).branch.fault == s.outputs[id].branch.fault
    ensures Looked(s, id, r).state.Failed? && !s.outputs[id].state.Failed? ==>
              && Looked(s, id, r).branch.fault.Some?
              && Looked(s, id, r).error == Some(Looked(s, id, r).branch.fault.value.error)
  {
  }

  lemma MovedBlames(s: Sys, step: Step, id: nat, c: Option<Fault>)
    requires s.finishing && id in s.outputs && Consistent(s.outputs[id]) && OnlyBlames(s, c) && BlamesFor(s, step, c)
    ensures var p := Moved(s, step, id); p.branch.fault.None? || p.branch.fault == c
  {
    hide Looked;
    if step.PollOutputStep? && step.id == id { StoppingIsNotLate(s, id, step.outputReading); }
  }

  lemma NotedBlames(s: Sys, step: Step, c: Option<Fault>)
    requires Valid(s) && AllConsistent(s) && OnlyBlames(s, c) && BlamesFor(s, step, c)
    ensures Noted(s, step).None? || (c.Some? && Noted(s, step) == Some(c.value.error))
  {
    match step
    case PollOutputStep(id, r) =>
      hide Valid, Examine, Looked;
      if id in s.outputs {
        ExamineLooks(s, id, r);
        StoppingIsNotLate(s, id, r);
      }
    case PollGroupStep(g, r) =>
      if g in s.groups {
        GroupIsUp(s, g);
        PolledQuietly(s.groups[g], r);
      }
    case _ =>
  }

  lemma StepOnlyBlames(s: Sys, step: Step, c: Option<Fault>)
    requires Valid(s) && s.finishing && AllConsistent(s) && OnlyBlames(s, c) && BlamesFor(s, step, c)
    ensures OnlyBlames(Apply(s, step), c)
  {
    hide Apply, Valid, Moved, MovedBranch, Noted, Polled;
    var t := Apply(s, step);
    FinishingStepShrinks(s, step);
    forall id | id in t.outputs ensures t.outputs[id].branch.fault.None? || t.outputs[id].branch.fault == c {
      StepMoves(s, step, id);
      MovedBlames(s, step, id, c);
    }
    forall g | g in t.groups ensures t.groups[g].branch.fault.None? {
      StepMovesGroup(s, step, g);
      GroupStaysUp(s, step, g);
    }
    StepNotes(s, step);
    NotedBlames(s, step, c);
  }

  lemma GroupStaysUp(s: Sys, step: Step, g: nat)
    requires Valid(s) && g in s.groups && s.groups[g].branch.fault.None? && Blameless(step)
    ensures MovedBranch(s, step, g).fault.None?
  {
    GroupIsUp(s, g);
    hide Valid, Polled;
    if step.PollGroupStep? { PolledQuietly(s.groups[g], step.groupReading); }
  }

  ghost predicate AllBlameless(steps: seq<Step>) {
    forall step :: step in steps ==> Blameless(step)
  }

  // Nothing fails in or around one poll.
  ghost predicate Peaceful(env: Surroundings) {
    && (forall p, k :: AllBlameless(env.others(p, k)))
    && (forall id :: Smooth(env.outputs(id)))
    && (forall g :: Blameless(PollGroupStep(g, env.groups(g))) && Blameless(PollGroupStep(g, env.groupsAgain(g))))
  }

  // Nothing fails, falls silent or refuses to be drained while finish() is under way.
  ghost predicate PeacefulFarewell(env: Farewell) {
    && (forall id :: env.closings(id).None?) && (forall id :: AllBlameless(env.others(id)))
    && (forall i :: Peaceful(env.polls(i)) && AllBlameless(env.sleeps(i)))
  }

  // Some output can still be failed.
  ghost predicate AnyAlive(s: Sys) {
    exists id :: id in s.outputs && !Reclaimed(s.outputs[id].branch)
  }

  ghost function Charge(s: Sys, cause: Option<Fault>): Option<Fault> {
    if AnyAlive(s) then cause else None
  }

  lemma ReclaimedStays(s: Sys, t: Sys)
    requires Shrinks(s, t) && !AnyAlive(s)
    ensures !AnyAlive(t)
  {
    forall id | id in t.outputs ensures Reclaimed(t.outputs[id].branch) {
      assert B.Ahead(s.outputs[id].branch, t.outputs[id].branch);
      assert Reclaimed(s.outputs[id].branch);
    }
  }

  // What holds in the part of finish() that tells the outputs to stop.
  ghost predicate Charged(s: Sys, cause: Option<Fault>, c: Option<Fault>) {
    Valid(s) && s.finishing && AllConsistent(s) && OnlyBlames(s, c) && (c == cause || !AnyAlive(s))
  }

  lemma ChargingBegins(s: Sys, cause: Option<Fault>)
    requires Valid(s) && AllConsistent(s) && Unfailed(s) && s.failure.None?
    ensures Charged(BeginFinish(s), cause, Charge(s, cause))
  {
    SlotOf(s);
    hide Valid, BeginFinish, Slot;
    FinishKeepsValid(s);
    FinishIsQuiet(s);
    FinishLeavesGroups(s);
    FinishKeepsFailure(s);
  }

  lemma StepIsCharged(s: Sys, step: Step, cause: Option<Fault>, c: Option<Fault>)
    requires Charged(s, cause, c) && Blameless(step) && (Foreign(step) || step.FinishOutputStep?)
    requires step.FinishOutputStep? ==> step.cause == cause
    ensures Charged(Apply(s, step), cause, c)
  {
    hide Apply, Valid, OnlyBlames, AllConsistent;
    assert BlamesFor(s, step, c);
    StepOnlyBlames(s, step, c);
    StepKeepsValid(s, step);
    StepKeepsConsistent(s, step);
    FinishingStepShrinks(s, step);
    if !AnyAlive(s) { ReclaimedStays(s, Apply(s, step)); }
  }

  lemma {:induction false} RunIsCharged(s: Sys, steps: seq<Step>, cause: Option<Fault>, c: Option<Fault>)
    requires Charged(s, cause, c) && ForeignOnly(steps) && AllBlameless(steps)
    ensures Charged(Run(s, steps), cause, c)
    decreases |steps|
  {
    hide Apply, Charged, Blameless;
    if steps != [] {
      assert steps[0] in steps;
      StepIsCharged(s, steps[0], cause, c);
      RunIsCharged(Apply(s, steps[0]), steps[1..], cause, c);
    }
  }

  lemma {:induction false} StopIsCharged(s: Sys, env: Farewell, n: nat)
    requires Valid(s) && AllConsistent(s) && Unfailed(s) && s.failure.None? && PeacefulFarewell(env)
    requires forall j :: ForeignOnly(env.others(j))
    ensures Charged(Run(s, StopSteps(env, n)), env.cause, Charge(s, env.cause))
  {
    hide Apply, Run, Valid, Charged, Charge, Unfailed, AllConsistent, BeginFinish;
    if n == 0 {
      StopStarts(s, env);
      ChargingBegins(s, env.cause);
    } else {
      StopIsCharged(s, env, n - 1);
      StopGoesOn(s, env, n - 1);
      var t := Run(s, StopSteps(env, n - 1));
      RunIsCharged(t, env.others(n - 1), env.cause, Charge(s, env.cause));
      StepIsCharged(Run(t, env.others(n - 1)), StopStep(env, n - 1), env.cause, Charge(s, env.cause));
    }
  }

  // ---- The rounds ----

  // A step of a round that blames nobody.
  predicate Calmly(step: Step) {
    Blameless(step) && !step.FinishOutputStep?
  }

  lemma CalmStepBlames(s: Sys, step: Step, c: Option<Fault>)
    requires Stopped(s) && AllConsistent(s) && OnlyBlames(s, c) && Calmly(step)
    ensures AllConsistent(Apply(s, step)) && OnlyBlames(Apply(s, step), c)
  {
    hide Apply, Valid, OnlyBlames, AllConsistent;
    assert BlamesFor(s, step, c);
    StepOnlyBlames(s, step, c);
    StepKeepsConsistent(s, step);
  }

  lemma {:induction false} CalmRunBlames(s: Sys, steps: seq<Step>, c: Option<Fault>)
    requires Stopped(s) && AllConsistent(s) && OnlyBlames(s, c) && forall step :: step in steps ==> Calmly(step)
    ensures OnlyBlames(Run(s, steps), c)
    decreases |steps|
  {
    hide Apply, Stopped, AllConsistent, OnlyBlames, Calmly;
    if steps != [] {
      assert steps[0] in steps;
      CalmStepBlames(s, steps[0], c);
      StepKeepsStopped(s, steps[0]);
      CalmRunBlames(Apply(s, steps[0]), steps[1..], c);
    }
  }

  lemma OthersAreCalm(steps: seq<Step>)
    requires ForeignOnly(steps) && AllBlameless(steps)
    ensures forall step :: step in steps ==> Calmly(step)
  {
  }

  lemma {:induction false} GroupStepsAreCalm(env: Surroundings, again: bool, n: nat)
    requires Proper(env) && Peaceful(env)
    ensures forall step :: step in GroupSteps(env, again, n) ==> Calmly(step)
  {
    if n > 0 {
      GroupStepsAreCalm(env, again, n - 1);
      OthersAreCalm(GroupOthers(env, again, n - 1));
      assert Blameless(PollGroupStep(n - 1, GroupReadingOf(env, again, n - 1)));
    }
  }

  lemma {:induction false} OutputStepsAreCalm(env: Surroundings, n: nat)
    requires Proper(env) && Peaceful(env)
    ensures forall step :: step in OutputSteps(env, n) ==> Calmly(step)
  {
    if n > 0 {
      OutputStepsAreCalm(env, n - 1);
      OthersAreCalm(env.others(6, n - 1));
    }
  }

  lemma PreparationIsCalm(env: Surroundings)
    requires Proper(env) && Peaceful(env)
    ensures forall step :: step in PreparationSteps(env) ==> Calmly(step)
  {
    OthersAreCalm(env.others(0, 0));
    OthersAreCalm(env.others(1, 0));
    OthersAreCalm(env.others(2, 0));
    OthersAreCalm(env.others(3, 0));
  }

  lemma PollIsCalm(s: Sys, env: Surroundings)
    requires Proper(env) && Peaceful(env)
    ensures forall step :: step in PollTrace(s, env) ==> Calmly(step)
  {
    hide Run, PreparationSteps, GroupSteps, OutputSteps;
    var first := PreparationSteps(env);
    PreparationIsCalm(env);
    GroupStepsAreCalm(env, false, Run(s, first).nextGroup);
    OthersAreCalm(env.others(5, 0));
    var a := Run(s, Opening(s, env));
    OutputStepsAreCalm(env, a.ctl.nextId);
    var b := Run(a, OutputSteps(env, a.ctl.nextId));
    GroupStepsAreCalm(env, true, b.nextGroup);
    OthersAreCalm(env.others(8, 0));
    OthersAreCalm(env.others(9, 0));
  }

  lemma {:induction false} RoundsAreCalm(s: Sys, env: Farewell, n: nat)
    requires PeacefulFarewell(env) && (forall i :: Proper(env.polls(i)) && ForeignOnly(env.sleeps(i)))
    ensures forall step :: step in RoundsSteps(s, env, n) ==> Calmly(step)
  {
    hide Run, PollTrace, Calmly, Busy;
    if n > 0 {
      RoundsAreCalm(s, env, n - 1);
      PollIsCalm(Run(s, RoundsSteps(s, env, n - 1)), env.polls(n - 1));
      OthersAreCalm(env.sleeps(n - 1));
    }
  }

  /** If no branch has failed and nothing fails meanwhile, finish() returns the failure of the session if it was
      given one and some output could still be failed, and no failure otherwise. */
  lemma FinishReturns(s: Sys, env: Farewell, rounds: nat, k: nat)
    requires Valid(s) && AllConsistent(s) && Unfailed(s) && s.failure.None? && PeacefulFarewell(env)
    requires FairFarewell(env, k) && Stopped(Run(s, StopSteps(env, BeginFinish(s).ctl.nextId)))
    requires Run(s, FinishSteps(s, env, rounds)).outputs == map[]
    ensures Run(s, FinishSteps(s, env, rounds)).failure ==
            if env.cause.Some? && AnyAlive(s) then Some(env.cause.value.error) else None
  {
    var c := Charge(s, env.cause);
    var a := Run(s, StopSteps(env, BeginFinish(s).ctl.nextId));
    hide Apply, Run, Valid, StopSteps, RoundsSteps, FinishSteps, BeginFinish, Unfailed, PeacefulFarewell, Stopped,
         AllConsistent;
    StopIsCharged(s, env, BeginFinish(s).ctl.nextId);
    FinishRun(s, env, rounds);
    RoundsAreCalm(a, env, rounds);
    CalmRunBlames(a, RoundsSteps(a, env, rounds), c);
    if c.Some? {
      var id :| id in s.outputs && !Reclaimed(s.outputs[id].branch);
      UnfailedIsAlive(s, id);
      CauseIsReturned(s, env, rounds, id);
    }
  }

  lemma UnfailedIsAlive(s: Sys, id: nat)
    requires Valid(s) && Unfailed(s) && id in s.outputs && !Reclaimed(s.outputs[id].branch)
    ensures Alive(s.outputs[id])
  {
    assert OutputListed(s, id);
  }
}
