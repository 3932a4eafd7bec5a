/** In every run an output agrees with its branch, and shares its group only with outputs of its own source
    generation. */
module ControllerAgreement {
  import opened Wrappers
  import opened OutputTypes
  import opened ControllerModel
  import opened ControllerInvariant
  import opened ControllerEffects
  import opened ControllerRuns
  import opened ControllerMoves
  import opened ControllerAdmission

  // ---- Outputs and their branches ----

  // A broken branch has a failure; one that closes was drained, so its output does not wait or run any more.
  predicate Consistent(o: Output) {
    && (o.branch.state.Broken? ==> o.branch.fault.Some?)
    && (o.branch.state.Closing? ==> o.state.Draining? || o.state.Failed?)
  }

  ghost predicate AllConsistent(s: Sys) {
    forall id :: id in s.outputs ==> Consistent(s.outputs[id])
  }

  lemma LookedConsistent(s: Sys, id: nat, r: OutputReading)
    requires id in s.outputs && Consistent(s.outputs[id])
    ensures Consistent(Looked(s, id, r))
  {
  }

  lemma MovedConsistent(s: Sys, step: Step, id: nat)
    requires id in s.outputs && Consistent(s.outputs[id])
    ensures Consistent(Moved(s, step, id))
  {
    hide Looked;
    if step.PollOutputStep? { LookedConsistent(s, id, step.outputReading); }
  }

  lemma NewConsistent(task: Task, r: PublishReading)
    requires task.plan.Success?
    ensures Consistent(NewOutput(task, r))
  {
  }

  lemma StepKeepsConsistent(s: Sys, step: Step)
    requires Valid(s) && AllConsistent(s)
    ensures AllConsistent(Apply(s, step))
  {
    hide Apply, Valid, Moved, NewOutput, Goes;
    var t := Apply(s, step);
    forall id | id in t.outputs ensures Consistent(t.outputs[id]) {
      if id in s.outputs {
        StepMoves(s, step, id);
        MovedConsistent(s, step, id);
      } else {
        StepBrings(s, step, id);
        NewConsistent(s.prep.value, step.publish);
      }
    }
  }

  lemma {:induction false} RunKeepsConsistent(s: Sys, steps: seq<Step>)
    requires Valid(s) && AllConsistent(s)
    ensures AllConsistent(Run(s, steps))
    decreases |steps|
  {
    hide Apply, Valid, AllConsistent;
    if steps != [] {
      StepKeepsConsistent(s, steps[0]);
      StepKeepsValid(s, steps[0]);
      RunKeepsConsistent(Apply(s, steps[0]), steps[1..]);
    }
  }

  // ---- Generations ----

  // An admitted candidate that is to share a group.
  predicate Shares(task: Task) {
    && task.exchange.construct && !task.exchange.release && task.plan.Success?
    && task.plan.value.encoding.ExistingGroup?
  }

  /** A running output has the generation of its group, and a candidate to join a group has it too. */
  ghost predicate Agreeing(s: Sys) {
    && (forall id :: id in s.outputs && s.outputs[id].branch.state.Active? ==>
          s.outputs[id].groupId in s.groups && s.groups[s.outputs[id].groupId].generation == s.outputs[id].generation)
    && (s.prep.Some? && Shares(s.prep.value) ==>
          var g := s.prep.value.plan.value.encoding.groupId;
          g in s.groups ==> s.groups[g].generation == s.prep.value.generation)
  }

  // Only a drain reads the generation anew, and it leaves no branch running.
  lemma MovedAgrees(s: Sys, step: Step, id: nat)
    requires id in s.outputs
    ensures var o, p := s.outputs[id], Moved(s, step, id);
            && p.groupId == o.groupId
            && (p.branch.state.Active? ==> o.branch.state.Active? && p.generation == o.generation)
  {
  }

  lemma OldOutputAgrees(s: Sys, step: Step, id: nat)
    requires Valid(s) && Agreeing(s) && id in s.outputs && id in Apply(s, step).outputs
    requires Apply(s, step).outputs[id].branch.state.Active?
    ensures var t := Apply(s, step);
            t.outputs[id].groupId in t.groups && t.groups[t.outputs[id].groupId].generation == t.outputs[id].generation
  {
    StepKeepsValid(s, step);
    InItsGroup(Apply(s, step), id);
    InItsGroup(s, id);
    hide Apply, Valid, Moved, MovedBranch;
    StepMoves(s, step, id);
    MovedAgrees(s, step, id);
    StepMovesGroup(s, step, s.outputs[id].groupId);
  }

  lemma InItsGroup(s: Sys, id: nat)
    requires Valid(s) && id in s.outputs
    ensures s.outputs[id].groupId in s.groups
  {
  }

  lemma NewOutputAgrees(s: Sys, step: Step, id: nat)
    requires Valid(s) && Agreeing(s) && id !in s.outputs && id in Apply(s, step).outputs
    ensures var t := Apply(s, step);
            t.outputs[id].groupId in t.groups && t.groups[t.outputs[id].groupId].generation == t.outputs[id].generation
  {
    StepBrings(s, step, id);
    ConstructedFacts(s);
    CandidateShares(s);
    var task, r := s.prep.value, step.publish;
    hide Valid, Apply, Free, Reached;
    ObjectionMeans(s, task, r);
    FreeCandidateIsPublished(s, r);
    var g := Target(task);
    if task.plan.value.encoding.ExistingGroup? {
      FreeGroupIsThere(s, task, r);
      StepMovesGroup(s, step, g);
    }
  }

  lemma CandidateShares(s: Sys)
    requires Valid(s) && s.prep.Some? && s.prep.value.exchange.stage.Constructed?
    ensures s.prep.value.plan.Success? && (s.prep.value.plan.value.encoding.ExistingGroup? ==> Shares(s.prep.value))
  {
    CandidateIsNew(s);
  }

  lemma FreeGroupIsThere(s: Sys, task: Task, r: PublishReading)
    requires task.plan.Success? && task.plan.value.encoding.ExistingGroup? && Free(s, task, r)
    ensures Target(task) in s.groups
  {
    assert !Stops(GroupRetired, s, task, r);
  }

  // A candidate that shares a group did so before, or has just been admitted to it.
  lemma SharingCandidate(s: Sys, step: Step)
    requires Valid(s) && Apply(s, step).prep.Some? && Shares(Apply(s, step).prep.value)
    ensures s.prep.Some?
    ensures var task, u := s.prep.value, Apply(s, step).prep.value;
            && u.plan == task.plan && u.generation == task.generation
            && (Shares(task) || (step.Planned? && task.exchange.stage.Planned? && Fit(s, task, step.admit)))
  {
    hide Take, LookAtPlanned, LookAtConstructed, PollGroup, Examine, Retire, BeginFinish, FinishOutput, Notify, Expire,
         WorkerTurn, Grouped, Drawn, Listed;
    match step
    case TakeStep(r) => TakeIsQuiet(s, r);
    case Planned(r) =>
      if s.prep.Some? && s.prep.value.exchange.stage.Planned? { SharingIsAdmitted(s, r); } else { NotPlanned(s, r); }
    case Constructed(r) => ConstructedReleases(s, r);
    case PollGroupStep(g, r) => PollGroupEffect(s, g, r);
    case PollOutputStep(id, r) =>
      if id in s.outputs && s.unpolled == {} {
        ExamineIsQuiet(s, id, r);
        RetireEffect(Examine(s, id, r).0, id);
      }
    case FinishStep => FinishIsQuiet(s);
    case FinishOutputStep(id, cause, generation, closing) => FinishOutputIsQuiet(s, id, cause, generation, closing);
    case NotifyStep => NotifyIsQuiet(s);
    case Budget(elapsed) => ExpireIsQuiet(s, elapsed);
    case Work(r) => WorkerEffect(s, r);
    case _ => CallsLeavePrep(s, step);
  }

  lemma CallsLeavePrep(s: Sys, step: Step)
    requires (Foreign(step) && !step.Work?) || step.Collect?
    ensures Apply(s, step).prep.Some? ==> Apply(s, step).prep == s.prep
  {
  }

  lemma NotPlanned(s: Sys, r: AdmitReading)
    requires s.prep.None? || !s.prep.value.exchange.stage.Planned?
    ensures LookAtPlanned(s, r) == s
  {
  }

  lemma SharingIsAdmitted(s: Sys, r: AdmitReading)
    requires Valid(s) && s.prep.Some? && s.prep.value.exchange.stage.Planned?
    requires LookAtPlanned(s, r).prep.Some? && Shares(LookAtPlanned(s, r).prep.value)
    ensures var task, u := s.prep.value, LookAtPlanned(s, r).prep.value;
            u.plan == task.plan && u.generation == task.generation && Fit(s, task, r)
  {
    VerdictMeans(s, s.prep.value, r);
    PlannedEffect(s, r);
    hide Valid, Fit, Reject, Admission;
  }

  lemma ConstructedReleases(s: Sys, r: PublishReading)
    requires Slot(s) && LookAtConstructed(s, r).prep.Some? && Shares(LookAtConstructed(s, r).prep.value)
    ensures LookAtConstructed(s, r).prep == s.prep
  {
    hide Settle;
    if s.prep.Some? { SettleEffect(s, r); }
  }

  lemma StepKeepsAgreeing(s: Sys, step: Step)
    requires Valid(s) && Agreeing(s)
    ensures Agreeing(Apply(s, step))
  {
    var t := Apply(s, step);
    hide Apply, Valid;
    forall id | id in t.outputs && t.outputs[id].branch.state.Active?
      ensures t.outputs[id].groupId in t.groups
              && t.groups[t.outputs[id].groupId].generation == t.outputs[id].generation
    {
      if id in s.outputs { OldOutputAgrees(s, step, id); } else { NewOutputAgrees(s, step, id); }
    }
    if t.prep.Some? && Shares(t.prep.value) { CandidateAgrees(s, step); }
  }

  lemma CandidateAgrees(s: Sys, step: Step)
    requires Valid(s) && Agreeing(s) && Apply(s, step).prep.Some? && Shares(Apply(s, step).prep.value)
    ensures var t := Apply(s, step);
            var g := t.prep.value.plan.value.encoding.groupId;
            g in t.groups ==> t.groups[g].generation == t.prep.value.generation
  {
    hide Apply, Valid, Fit;
    SharingCandidate(s, step);
    var task := s.prep.value;
    var g := task.plan.value.encoding.groupId;
    if g in Apply(s, step).groups {
      if g in s.groups {
        StepMovesGroup(s, step, g);
        if !Shares(task) { FitSharesGeneration(s, task, step.admit); }
      } else {
        GroupComesByPublication(s, step, g);
      }
    }
  }

  lemma FitSharesGeneration(s: Sys, task: Task, r: AdmitReading)
    requires Fit(s, task, r) && task.plan.Success? && task.plan.value.encoding.ExistingGroup?
    ensures var g := task.plan.value.encoding.groupId; g in s.groups && s.groups[g].generation == task.generation
  {
    assert !Objects(GroupUnavailable, s, task, r);
  }

  // A group comes only with a candidate that brings it, and that one is released.
  lemma GroupComesByPublication(s: Sys, step: Step, g: nat)
    requires Valid(s) && g !in s.groups && g in Apply(s, step).groups
    ensures Apply(s, step).prep.Some? ==> !Shares(Apply(s, step).prep.value)
  {
    hide Apply, Valid;
    if !Publishes(s, step) { GroupsComeByPublication(s, step); }
    SlotOf(s);
    ConstructedIsAStep(s, step);
    NewGroupReleases(s, step.publish, g);
  }

  lemma ConstructedIsAStep(s: Sys, step: Step)
    requires step.Constructed?
    ensures Apply(s, step) == LookAtConstructed(s, step.publish)
  {
  }

  lemma NewGroupReleases(s: Sys, r: PublishReading, g: nat)
    requires Slot(s) && g !in s.groups && g in LookAtConstructed(s, r).groups
    ensures LookAtConstructed(s, r).prep.Some? ==> !Shares(LookAtConstructed(s, r).prep.value)
  {
    hide Settle;
    if s.prep.Some? { SettleEffect(s, r); }
  }

  /** In every run no encoder serves two generations of the source: every output whose branch runs has the
      generation of its group. */
  lemma {:induction false} RunKeepsAgreeing(s: Sys, steps: seq<Step>)
    requires Valid(s) && Agreeing(s)
    ensures Agreeing(Run(s, steps))
    decreases |steps|
  {
    hide Apply, Valid, Agreeing;
    if steps != [] {
      StepKeepsAgreeing(s, steps[0]);
      StepKeepsValid(s, steps[0]);
      RunKeepsAgreeing(Apply(s, steps[0]), steps[1..]);
    }
  }

  lemma InitialAgrees(shared: set<nat>, encoding: set<nat>, protocol: set<nat>, generation: nat, startedAt: nat,
                      startupWait: nat, traffic: nat, capacity: nat, lease: nat)
    ensures var s := Initial(shared, encoding, protocol, generation, startedAt, startupWait, traffic, capacity, lease);
            Agreeing(s) && AllConsistent(s)
  {
  }
}
