/** What holds in every run of the controller, whatever the other threads do in between. */
module ControllerRuns {
  import opened Wrappers
  import opened ControllerModel
  import opened ControllerInvariant
  import opened ControllerEffects
  import opened ControllerSlot
  import opened ControllerGroups
  import opened ControllerGraph
  import opened ControllerTable
  import B = RuntimeBranch
  import C = ControlModel
  import X = PreparationExchange

  // ---- The invariant ----

  lemma StepKeepsValid(s: Sys, step: Step)
    requires Valid(s)
    ensures Valid(Apply(s, step))
  {
    StepKeepsSlot(s, step);
    StepKeepsGroups(s, step);
    StepKeepsGraph(s, step);
    StepKeepsListed(s, step);
  }

  /** Every interleaving of the control thread, the worker, the callers and the branches keeps the
      slot, the group accounting, the graph and the snapshot table in step with one another. */
  lemma {:induction false} RunKeepsValid(s: Sys, steps: seq<Step>)
    requires Valid(s)
    ensures Valid(Run(s, steps))
    decreases |steps|
  {
    if steps != [] {
      StepKeepsValid(s, steps[0]);
      RunKeepsValid(Apply(s, steps[0]), steps[1..]);
    }
  }

  /** A controller whose initial output has been started is valid. */
  lemma InitialIsValid(shared: set<nat>, encoding: set<nat>, protocol: set<nat>, generation: nat, startedAt: nat,
                       startupWait: nat, traffic: nat, capacity: nat, lease: nat)
    requires shared !! encoding && shared !! protocol && encoding !! protocol
    ensures Valid(Initial(shared, encoding, protocol, generation, startedAt, startupWait, traffic, capacity, lease))
  {
    var s := Initial(shared, encoding, protocol, generation, startedAt, startupWait, traffic, capacity, lease);
    InitialTable(s.outputs[1]);
    assert Slot(s);
    assert Grouped(s) by { assert Members(s.outputs, 1) == {1}; }
    InitialGraph(s.outputs[1], s.groups[1], shared);
    assert Drawn(s);
    assert Listed(s) by { assert OutputListed(s, 1); }
  }

  lemma InitialGraph(o: Output, g: Group, shared: set<nat>)
    requires o.published && g.graphPublished
    requires shared !! o.nodes && shared !! g.nodes && o.nodes !! g.nodes
    ensures Covers(map[1 := o], map[1 := g], shared, shared + g.nodes + o.nodes)
  {
    var none: map<nat, set<nat>> := map[];
    assert GroupNodes(map[1 := g]) == none[1 := g.nodes] && OutputNodes(map[1 := o]) == none[1 := o.nodes];
    OwnerAdded(none, 1, g.nodes);
    OwnerAdded(none, 1, o.nodes);
    assert Union(none) == {};
  }

  lemma InitialTable(o: Output)
    requires o.state.Waiting?
    ensures var c := C.SetEnabled(C.Publish(C.RegisterInitial(C.EMPTY).0, SnapshotOf(1, o)), true);
            C.Sound(c) && C.Ordered(c.history) && c.table == map[1 := SnapshotOf(1, o)] && c.nextId == 2
  {
    C.ApplyKeepsSound(C.EMPTY, C.Register);
    var registered := C.RegisterInitial(C.EMPTY).0;
    C.PublishKeepsOrder(registered, SnapshotOf(1, o));
    C.ApplyKeepsSound(C.Publish(registered, SnapshotOf(1, o)), C.Enable(true));
  }

  // ---- Graph ----

  /** An output takes its own nodes out of the graph when it retires, and one whose publication
      failed takes out nothing: no other output or group loses a node. */
  lemma RetirementTakesOwnNodes(s: Sys, id: nat)
    requires Valid(s) && id in s.outputs
    ensures var t := Retire(s, id);
            && (!s.outputs[id].published ==> t.graph == s.graph)
            && (forall other :: other in t.outputs && t.outputs[other].published ==> t.outputs[other].nodes <= t.graph)
            && (forall g :: g in t.groups && t.groups[g].graphPublished ==> t.groups[g].nodes <= t.graph)
            && s.shared <= t.graph
  {
    OutputLeavesCover(s.outputs, s.groups, s.shared, s.graph, id);
    RetireKeepsCover(s, id);
    var t := Retire(s, id);
    forall other | other in t.outputs && t.outputs[other].published
      ensures t.outputs[other].nodes <= t.graph
    {
      assert other in OutputNodes(t.outputs);
      OwnerRemoved(OutputNodes(t.outputs), other);
    }
    forall g | g in t.groups && t.groups[g].graphPublished
      ensures t.groups[g].nodes <= t.graph
    {
      assert g in GroupNodes(t.groups);
      OwnerRemoved(GroupNodes(t.groups), g);
    }
  }

  /** Optimistic concurrency: a candidate whose version still matches was built on the very graph
      that is current, so publishing it adds its nodes and loses none. */
  lemma PublicationAddsOnly(s: Sys, r: PublishReading)
    requires Valid(s) && s.prep.Some? && s.prep.value.exchange.stage.Constructed?
    ensures s.graph <= LookAtConstructed(s, r).graph
    ensures s.prep.value.version == s.version ==> s.prep.value.graph == s.graph
    ensures LookAtConstructed(s, r).graph != s.graph ==> LookAtConstructed(s, r).version == s.version + 1
  {
    assert s.prep.value.version == s.version ==> s.prep.value.graph == s.graph;
    hide Settle, Valid;
    SettleEffect(s, r);
    SettleGraph(s, r);
  }

  // ---- Groups ----

  /** A group that is gone or draining, and not about to be registered. */
  ghost predicate Spent(s: Sys, g: nat) {
    && g < s.nextGroup
    && (g in s.groups ==> s.groups[g].draining)
    && !(s.prep.Some? && BringsGroup(s.prep.value) && s.prep.value.target == g)
  }

  // A candidate nobody refuses does not aim at a spent group.
  lemma TargetIsNotSpent(s: Sys, task: Task, r: PublishReading, g: nat)
    requires s.prep == Some(task) && X.Valid(task.exchange) && task.exchange.stage.Constructed?
    requires Spent(s, g) && task.plan.Success? && Refusal(s, task, r).None?
    ensures Target(task) != g
  {
  }

  // Settling leaves a spent group draining, or gone.
  lemma SettleKeepsSpent(s: Sys, r: PublishReading, g: nat)
    requires s.prep.Some? && X.Valid(s.prep.value.exchange) && s.prep.value.exchange.stage.Constructed? && Spent(s, g)
    ensures g in Settle(s, r).groups ==> g in s.groups && Settle(s, r).groups[g].draining
  {
    SettleEffect(s, r);
    var task := s.prep.value;
    var t := Settle(s, r);
    if task.broken.Some? || task.plan.Failure? || Refusal(s, task, r).Some? {
      if g in s.groups { assert SameGroup(s.groups[g], t.groups[g]); }
    } else {
      TargetIsNotSpent(s, task, r, g);
      var u := JoinGroup(s, task, r);
      assert (g in u.groups <==> g in s.groups) && (g in s.groups ==> u.groups[g] == s.groups[g]);
      if r.ending.OutputNotInserted? && g in u.groups { assert SameGroup(u.groups[g], t.groups[g]); }
    }
  }

  lemma ConstructedKeepsSpent(s: Sys, r: PublishReading, g: nat)
    requires Valid(s) && Spent(s, g)
    ensures Spent(LookAtConstructed(s, r), g)
    ensures g !in s.groups ==> g !in LookAtConstructed(s, r).groups
  {
    if s.prep.Some? && s.prep.value.exchange.stage.Constructed? {
      hide Settle;
      SettleEffect(s, r);
      SettleKeepsSpent(s, r, g);
    }
  }

  lemma PollGroupKeepsSpent(s: Sys, h: nat, r: GroupReading, g: nat)
    requires Spent(s, g)
    ensures Spent(PollGroup(s, h, r), g)
    ensures g !in s.groups ==> g !in PollGroup(s, h, r).groups
  {
    PollGroupEffect(s, h, r);
    if h in s.groups && s.groups[h].outputCount == 0 {
      GroupPollIsQuiet(s.groups[h], r);
    }
  }

  lemma PollOutputKeepsSpent(s: Sys, id: nat, r: OutputReading, g: nat)
    requires Spent(s, g)
    ensures Spent(PollOutput(s, id, r), g)
    ensures g !in s.groups ==> g !in PollOutput(s, id, r).groups
  {
    if id in s.outputs && s.unpolled == {} {
      ExamineIsQuiet(s, id, r);
      RetireEffect(Examine(s, id, r).0, id);
    }
  }

  lemma CalmKeepsSpent(s: Sys, step: Step, g: nat)
    requires Valid(s) && Spent(s, g) && Calm(step)
    ensures Spent(Apply(s, step), g)
    ensures g !in s.groups ==> g !in Apply(s, step).groups
  {
    CalmIsQuiet(s, step);
    var t := Apply(s, step);
    if g in s.groups { assert SameGroup(s.groups[g], t.groups[g]); }
    CalmBringsNothing(s, step, g);
  }

  // A calm step never aims a preparation at a spent group.
  lemma CalmBringsNothing(s: Sys, step: Step, g: nat)
    requires Slot(s) && Spent(s, g) && Calm(step)
    ensures var t := Apply(s, step); !(t.prep.Some? && BringsGroup(t.prep.value) && t.prep.value.target == g)
  {
    hide LookAtPlanned, WorkerTurn, Take, Expire, Notify, BeginFinish, FinishOutput;
    match step
    case Planned(r) => PlannedIsQuiet(s, r);
    case Work(r) => WorkerEffect(s, r);
    case TakeStep(r) => TakeIsQuiet(s, r);
    case Budget(elapsed) => ExpireIsQuiet(s, elapsed);
    case NotifyStep => NotifyIsQuiet(s);
    case FinishStep => FinishIsQuiet(s);
    case FinishOutputStep(id, cause, generation, closing) => FinishOutputIsQuiet(s, id, cause, generation, closing);
    case Collect =>
    case _ => ForeignIsQuiet(s, step);
  }

  lemma StepKeepsSpent(s: Sys, step: Step, g: nat)
    requires Valid(s) && Spent(s, g)
    ensures Spent(Apply(s, step), g)
    ensures g !in s.groups ==> g !in Apply(s, step).groups
  {
    hide Valid, Spent, LookAtConstructed, PollGroup, PollOutput, Take, LookAtPlanned, BeginFinish, FinishOutput, Notify,
         Expire, WorkerTurn;
    if step.Constructed? {
      ConstructedKeepsSpent(s, step.publish, g);
    } else if Calm(step) {
      CalmKeepsSpent(s, step, g);
    } else if step.PollGroupStep? {
      PollGroupKeepsSpent(s, step.group, step.groupReading, g);
    } else {
      PollOutputKeepsSpent(s, step.id, step.outputReading, g);
    }
  }

  /** Across the asynchronous gap: once a group drains, whatever was chosen before, it never gains
      an output again; once it is gone its identity never returns. */
  lemma {:induction false} DrainingGroupIsNeverJoined(s: Sys, steps: seq<Step>, g: nat)
    requires Valid(s) && Spent(s, g)
    ensures var t := Run(s, steps);
            && Spent(t, g)
            && (g !in s.groups ==> g !in t.groups)
            && (forall id :: id in t.outputs ==> t.outputs[id].groupId != g)
    decreases |steps|
  {
    if steps == [] {
      assert forall id :: id in s.outputs && s.outputs[id].groupId == g ==> id in Members(s.outputs, g);
    } else {
      StepKeepsSpent(s, steps[0], g);
      StepKeepsValid(s, steps[0]);
      DrainingGroupIsNeverJoined(Apply(s, steps[0]), steps[1..], g);
    }
  }

  lemma GroupIdsOnlyGrow(s: Sys, step: Step)
    ensures s.nextGroup <= Apply(s, step).nextGroup
  {
    if Calm(step) {
      CalmIsQuiet(s, step);
    } else if step.PollGroupStep? {
      PollGroupEffect(s, step.group, step.groupReading);
    } else if step.Constructed? {
      if s.prep.Some? { SettleEffect(s, step.publish); }
    } else if step.id in s.outputs && s.unpolled == {} {
      ExamineIsQuiet(s, step.id, step.outputReading);
      RetireEffect(Examine(s, step.id, step.outputReading).0, step.id);
    }
  }

  lemma ConstructedKeepsRegistered(s: Sys, step: Step, g: nat)
    requires step.Constructed? && g in s.groups
    ensures g in Apply(s, step).groups
  {
    hide Settle;
    if s.prep.Some? { SettleOutputs(s, step.publish); }
  }

  lemma PollOutputKeepsRegistered(s: Sys, step: Step, g: nat)
    requires step.PollOutputStep? && g in s.groups
    ensures g in Apply(s, step).groups
  {
    hide Examine, Retire;
    if step.id in s.outputs && s.unpolled == {} {
      ExamineIsQuiet(s, step.id, step.outputReading);
      RetireEffect(Examine(s, step.id, step.outputReading).0, step.id);
    }
  }

  lemma PollGroupErasesUnused(s: Sys, step: Step, g: nat)
    requires step.PollGroupStep? && g in s.groups && s.groups[g].outputCount != 0
    ensures g in Apply(s, step).groups
  {
    hide PollGroup;
    PollGroupEffect(s, step.group, step.groupReading);
  }

  /** A group is erased only when no output names it. */
  lemma {:induction false} ErasedGroupIsUnused(s: Sys, step: Step, g: nat)
    requires Grouped(s) && g in s.groups && g !in Apply(s, step).groups
    ensures s.groups[g].outputCount == 0 && forall id :: id in s.outputs ==> s.outputs[id].groupId != g
  {
    hide Apply, Grouped;
    if Calm(step) {
      CalmIsQuiet(s, step);
    } else if step.Constructed? {
      ConstructedKeepsRegistered(s, step, g);
    } else if step.PollOutputStep? {
      PollOutputKeepsRegistered(s, step, g);
    } else {
      if s.groups[g].outputCount != 0 { PollGroupErasesUnused(s, step, g); }
      MemberlessGroup(s, g);
    }
  }

  // ---- Finishing ----

  // t holds nothing that s did not, and every branch that is left has gone on its way.
  ghost predicate Shrinks(s: Sys, t: Sys) {
    && t.finishing
    && (forall id :: id in t.outputs ==> id in s.outputs && B.Ahead(s.outputs[id].branch, t.outputs[id].branch))
    && (forall g :: g in t.groups ==> g in s.groups && B.Ahead(s.groups[g].branch, t.groups[g].branch))
    && (t.prep.Some? ==> s.prep.Some?)
  }

  lemma QuietShrinks(s: Sys, t: Sys)
    requires Quiet(s, t) && t.finishing && (t.prep.Some? ==> s.prep.Some?)
    ensures Shrinks(s, t)
  {
    forall id | id in t.outputs ensures B.Ahead(s.outputs[id].branch, t.outputs[id].branch) {
      assert SameOutput(s.outputs[id], t.outputs[id]);
    }
    forall g | g in t.groups ensures B.Ahead(s.groups[g].branch, t.groups[g].branch) {
      assert SameGroup(s.groups[g], t.groups[g]);
    }
  }

  lemma PollsShrink(s: Sys, step: Step)
    requires s.finishing && (step.PollOutputStep? || step.PollGroupStep?)
    ensures Shrinks(s, Apply(s, step))
  {
    hide PollGroup, Examine, Retire;
    var t := Apply(s, step);
    if step.PollGroupStep? {
      PollGroupEffect(s, step.group, step.groupReading);
      assert forall id :: id in t.outputs ==> SameOutput(s.outputs[id], t.outputs[id]);
      if step.group in s.groups && s.groups[step.group].outputCount == 0 {
        GroupPollIsQuiet(s.groups[step.group], step.groupReading);
      }
    } else if step.id in s.outputs && s.unpolled == {} {
      ExamineIsQuiet(s, step.id, step.outputReading);
      QuietShrinks(s, Examine(s, step.id, step.outputReading).0);
      RetireEffect(Examine(s, step.id, step.outputReading).0, step.id);
    }
  }

  lemma FinishingStepShrinks(s: Sys, step: Step)
    requires s.finishing
    ensures Shrinks(s, Apply(s, step))
  {
    if Calm(step) {
      CalmIsQuiet(s, step);
      QuietShrinks(s, Apply(s, step));
    } else if step.Constructed? {
      if s.prep.Some? {
        SettleEffect(s, step.publish);
        QuietShrinks(s, LookAtConstructed(s, step.publish));
      }
    } else {
      PollsShrink(s, step);
    }
  }

  /** Once finishing, no output, group or preparation is ever created, and no branch turns back. */
  lemma {:induction false} FinishingRunShrinks(s: Sys, steps: seq<Step>)
    requires s.finishing
    ensures Shrinks(s, Run(s, steps))
    decreases |steps|
  {
    if steps != [] {
      FinishingStepShrinks(s, steps[0]);
      FinishingRunShrinks(Apply(s, steps[0]), steps[1..]);
    }
  }

  lemma RunKeepsFinishing(s: Sys, steps: seq<Step>)
    requires s.finishing
    ensures Run(s, steps).finishing
  {
    FinishingRunShrinks(s, steps);
  }
}
