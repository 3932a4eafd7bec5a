/** One call of poll() as a run: the steps it performs, in order, with the other threads in between. */
module ControllerPoll {
  import opened ControllerModel
  import opened ControllerInvariant
  import opened ControllerEffects
  import opened ControllerRuns

  // What one call reads, and what the other threads do meanwhile: `others(p, k)` are their steps
  // just before item k of part p of the call.
  datatype Surroundings = Surroundings(
    budget: nat, planned: AdmitReading, constructed: PublishReading,
    groups: nat -> GroupReading, outputs: nat -> OutputReading, groupsAgain: nat -> GroupReading,
    take: TakeReading, others: (nat, nat) -> seq<Step>)

  ghost predicate ForeignOnly(steps: seq<Step>) {
    forall step :: step in steps ==> Foreign(step)
  }

  ghost predicate Proper(env: Surroundings) {
    forall p, k :: ForeignOnly(env.others(p, k))
  }

  // The preparation is looked at, in whichever stage it is.
  function PreparationSteps(env: Surroundings): seq<Step> {
    env.others(0, 0) + [Budget(env.budget)] + env.others(1, 0) + [Planned(env.planned)]
    + env.others(2, 0) + [Constructed(env.constructed)] + env.others(3, 0) + [Collect]
  }

  function GroupReadingOf(env: Surroundings, again: bool, g: nat): GroupReading {
    if again then env.groupsAgain(g) else env.groups(g)
  }

  function GroupOthers(env: Surroundings, again: bool, g: nat): seq<Step> {
    env.others(if again then 7 else 4, g)
  }

  // Every registered group is polled; an identifier that is not registered costs nothing.
  function GroupSteps(env: Surroundings, again: bool, n: nat): seq<Step> {
    if n == 0 then []
    else GroupSteps(env, again, n - 1) + GroupOthers(env, again, n - 1)
         + [PollGroupStep(n - 1, GroupReadingOf(env, again, n - 1))]
  }

  function OutputSteps(env: Surroundings, n: nat): seq<Step> {
    if n == 0 then []
    else OutputSteps(env, n - 1) + env.others(6, n - 1) + [PollOutputStep(n - 1, env.outputs(n - 1))]
  }

  // Up to the loop over outputs: the preparation, the groups, the deferred notification.
  function Opening(s: Sys, env: Surroundings): seq<Step> {
    var first := PreparationSteps(env);
    first + GroupSteps(env, false, Run(s, first).nextGroup) + env.others(5, 0) + [NotifyStep]
  }

  // From the second loop over groups on.
  function Conclusion(s: Sys, env: Surroundings): seq<Step> {
    GroupSteps(env, true, s.nextGroup) + env.others(8, 0) + [NotifyStep] + env.others(9, 0) + [TakeStep(env.take)]
  }

  function PollTrace(s: Sys, env: Surroundings): seq<Step> {
    var opening := Opening(s, env);
    var t := Run(s, opening);
    var middle := OutputSteps(env, t.ctl.nextId);
    opening + middle + Conclusion(Run(t, middle), env)
  }

  // ---- The position in poll() ----

  // Where the four looks at the preparation lead.
  lemma PreparationRun(s: Sys, env: Surroundings, a: Sys, b: Sys, c: Sys, d: Sys)
    requires a == Apply(Run(s, env.others(0, 0)), Budget(env.budget))
    requires b == Apply(Run(a, env.others(1, 0)), Planned(env.planned))
    requires c == Apply(Run(b, env.others(2, 0)), Constructed(env.constructed))
    requires d == Apply(Run(c, env.others(3, 0)), Collect)
    ensures Run(s, PreparationSteps(env)) == d
  {
    hide Apply, Run;
    RunNothing(s);
    var one := [] + env.others(0, 0) + [Budget(env.budget)];
    RunThen(s, [], env.others(0, 0), Budget(env.budget));
    var two := one + env.others(1, 0) + [Planned(env.planned)];
    RunThen(s, one, env.others(1, 0), Planned(env.planned));
    var three := two + env.others(2, 0) + [Constructed(env.constructed)];
    RunThen(s, two, env.others(2, 0), Constructed(env.constructed));
    RunThen(s, three, env.others(3, 0), Collect);
    assert three + env.others(3, 0) + [Collect] == PreparationSteps(env);
  }

  lemma NotifyIsAStep(s: Sys)
    ensures Apply(s, NotifyStep) == Notify(s)
  {
  }

  lemma OpeningRun(s: Sys, env: Surroundings, a: Sys, b: Sys, c: Sys)
    requires a == Run(s, PreparationSteps(env))
    requires b == Run(a, GroupSteps(env, false, a.nextGroup))
    requires c == Apply(Run(b, env.others(5, 0)), NotifyStep)
    ensures Run(s, Opening(s, env)) == c
  {
    hide Apply, Run;
    var first, polls := PreparationSteps(env), GroupSteps(env, false, a.nextGroup);
    RunAppend(s, first, polls);
    RunThen(s, first + polls, env.others(5, 0), NotifyStep);
  }

  lemma ConclusionRun(s: Sys, env: Surroundings, a: Sys, b: Sys, c: Sys)
    requires a == Run(s, GroupSteps(env, true, s.nextGroup))
    requires b == Apply(Run(a, env.others(8, 0)), NotifyStep)
    requires c == Apply(Run(b, env.others(9, 0)), TakeStep(env.take))
    ensures Run(s, Conclusion(s, env)) == c
  {
    hide Apply, Run;
    var polls := GroupSteps(env, true, s.nextGroup);
    RunThen(s, polls, env.others(8, 0), NotifyStep);
    RunThen(s, polls + env.others(8, 0) + [NotifyStep], env.others(9, 0), TakeStep(env.take));
  }

  lemma PollRun(s: Sys, env: Surroundings, a: Sys, b: Sys, c: Sys)
    requires a == Run(s, Opening(s, env))
    requires b == Run(a, OutputSteps(env, a.ctl.nextId))
    requires c == Run(b, Conclusion(b, env))
    ensures Run(s, PollTrace(s, env)) == c
  {
    hide Apply, Run;
    var opening, middle := Opening(s, env), OutputSteps(env, a.ctl.nextId);
    RunAppend(s, opening, middle);
    RunAppend(s, opening + middle, Conclusion(b, env));
  }

  lemma ForeignKeepsUnpolled(s: Sys, steps: seq<Step>)
    requires ForeignOnly(steps)
    ensures var t := Run(s, steps); t.unpolled == s.unpolled && t.nextGroup == s.nextGroup && t.finishing == s.finishing
    ensures Run(s, steps).terminal == s.terminal && (Run(s, steps).prep.Some? <==> s.prep.Some?)
    ensures forall g :: g in Run(s, steps).groups <==> g in s.groups
    decreases |steps|
  {
    if steps != [] {
      assert steps[0] in steps;
      if steps[0].Work? { WorkerEffect(s, steps[0].work); } else { ForeignIsQuiet(s, steps[0]); }
      ForeignKeepsUnpolled(Apply(s, steps[0]), steps[1..]);
    }
  }

  lemma RunNothing(s: Sys)
    ensures Run(s, []) == s
  {
  }

  lemma RunThen(s: Sys, steps: seq<Step>, others: seq<Step>, step: Step)
    ensures Run(s, steps + others + [step]) == Apply(Run(Run(s, steps), others), step)
  {
    RunAppend(s, steps + others, [step]);
    RunAppend(s, steps, others);
    var t := Run(s, steps + others);
    assert [step][1..] == [];
    assert Run(t, [step]) == Run(Apply(t, step), []);
  }

  // One round of a loop over groups.
  lemma GroupIsPolled(s: Sys, others: seq<Step>, g: nat, r: GroupReading)
    requires ForeignOnly(others)
    ensures var t := Apply(Run(s, others), PollGroupStep(g, r));
            t.nextGroup == s.nextGroup && t.finishing == s.finishing && t.unpolled == s.unpolled - {g}
  {
    ForeignKeepsUnpolled(s, others);
    PollGroupEffect(Run(s, others), g, r);
  }

  lemma GroupRound(s: Sys, env: Surroundings, again: bool, n: nat)
    ensures Run(s, GroupSteps(env, again, n + 1)) ==
            Apply(Run(Run(s, GroupSteps(env, again, n)), GroupOthers(env, again, n)),
                  PollGroupStep(n, GroupReadingOf(env, again, n)))
  {
    RunThen(s, GroupSteps(env, again, n), GroupOthers(env, again, n), PollGroupStep(n, GroupReadingOf(env, again, n)));
  }

  /** Polling every group leaves none to be polled. */
  lemma {:induction false} GroupsArePolled(s: Sys, env: Surroundings, again: bool, n: nat)
    requires Proper(env)
    ensures var t := Run(s, GroupSteps(env, again, n));
            && t.nextGroup == s.nextGroup && t.finishing == s.finishing
            && forall g :: g in t.unpolled ==> g in s.unpolled && n <= g
  {
    if n > 0 {
      GroupsArePolled(s, env, again, n - 1);
      GroupRound(s, env, again, n - 1);
      var t := Run(s, GroupSteps(env, again, n - 1));
      GroupIsPolled(t, GroupOthers(env, again, n - 1), n - 1, GroupReadingOf(env, again, n - 1));
    }
  }

  // Nobody sets groups to be polled again.
  lemma StaysPolled(s: Sys, step: Step)
    requires s.unpolled == {} && !step.Constructed?
    ensures Apply(s, step).unpolled == {}
  {
    hide Take, BeginFinish, DrainOutput, Reject, Examine, Retire, PollGroup, Notify, Expire, WorkerTurn, Admission;
    match step
    case TakeStep(r) => TakeIsQuiet(s, r);
    case FinishStep => FinishIsQuiet(s);
    case FinishOutputStep(id, cause, generation, closing) =>
      if id in s.outputs { DrainIsQuiet(s, id, generation, closing); }
    case Planned(r) => if s.prep.Some? && s.prep.value.exchange.stage.Planned? {
      PlannedEffect(s, r);
      var verdict := Admission(s, s.prep.value, r);
      if verdict.Failure? { RejectIsQuiet(Judging(s, r), s.prep.value.id, verdict.error); }
    }
    case PollOutputStep(id, r) => if id in s.outputs {
      ExamineIsQuiet(s, id, r);
      RetireEffect(Examine(s, id, r).0, id);
    }
    case PollGroupStep(g, r) => PollGroupEffect(s, g, r);
    case NotifyStep => NotifyIsQuiet(s);
    case Budget(elapsed) => ExpireIsQuiet(s, elapsed);
    case Work(r) => WorkerEffect(s, r);
    case Collect =>
    case _ => ForeignIsQuiet(s, step);
  }

  /** When poll() reaches the outputs, every group has been polled since the last publication. */
  lemma OutputsComeAfterGroups(s: Sys, env: Surroundings)
    requires Valid(s) && Proper(env)
    ensures Run(s, Opening(s, env)).unpolled == {}
  {
    hide Apply, Run, PreparationSteps;
    var first := PreparationSteps(env);
    var t := Run(s, first);
    RunKeepsValid(s, first);
    var polls := GroupSteps(env, false, t.nextGroup);
    GroupsArePolled(t, env, false, t.nextGroup);
    RunAppend(s, first, polls);
    RunThen(s, first + polls, env.others(5, 0), NotifyStep);
    ForeignKeepsUnpolled(Run(t, polls), env.others(5, 0));
    NotifyIsAStep(Run(Run(t, polls), env.others(5, 0)));
    NotifyIsQuiet(Run(Run(t, polls), env.others(5, 0)));
  }
}
