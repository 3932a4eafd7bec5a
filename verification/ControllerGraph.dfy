/** Every step keeps the graph equal to what is published and live. */
module ControllerGraph {
  import opened Wrappers
  import opened OutputTypes
  import opened ControllerModel
  import opened ControllerInvariant
  import opened ControllerEffects
  import opened ControllerSlot
  import opened ControllerGroups
  import C = ControlModel
  import X = PreparationExchange

  // ---- Unions of owned nodes ----

  lemma OwnerAdded(owned: map<nat, set<nat>>, k: nat, nodes: set<nat>)
    requires k !in owned
    ensures Union(owned[k := nodes]) == Union(owned) + nodes
    ensures Apart(owned) && Union(owned) !! nodes ==> Apart(owned[k := nodes])
  {
    var more := owned[k := nodes];
    forall n
      ensures n in Union(more) <==> n in Union(owned) || n in nodes
    {
      if n in nodes { assert n in more[k]; }
      if n in Union(owned) {
        var j :| j in owned && n in owned[j];
        assert n in more[j];
      }
    }
    forall i | i in owned
      ensures owned[i] <= Union(owned)
    {
    }
  }

  lemma OwnerRemoved(owned: map<nat, set<nat>>, k: nat)
    requires k in owned && Apart(owned)
    ensures Union(owned - {k}) == Union(owned) - owned[k] && Apart(owned - {k})
    ensures owned[k] <= Union(owned)
  {
    var less := owned - {k};
    forall n
      ensures n in Union(less) <==> n in Union(owned) && n !in owned[k]
    {
      if n in Union(owned) && n !in owned[k] {
        var j :| j in owned && n in owned[j];
        assert n in less[j];
      }
    }
  }

  // ---- The nodes of the graph ----

  lemma QuietKeepsCover(s: Sys, t: Sys)
    requires Covers(s.outputs, s.groups, s.shared, s.graph) && Quiet(s, t)
    ensures Covers(t.outputs, t.groups, t.shared, t.graph)
  {
    forall g | g in s.groups
      ensures t.groups[g].nodes == s.groups[g].nodes && t.groups[g].graphPublished == s.groups[g].graphPublished
    {
      assert SameGroup(s.groups[g], t.groups[g]);
    }
    forall id | id in s.outputs
      ensures t.outputs[id].nodes == s.outputs[id].nodes && t.outputs[id].published == s.outputs[id].published
    {
      assert SameOutput(s.outputs[id], t.outputs[id]);
    }
    assert GroupNodes(t.groups) == GroupNodes(s.groups);
    assert OutputNodes(t.outputs) == OutputNodes(s.outputs);
  }

  // A retired output takes its own nodes and no others; one never published takes none.
  lemma OutputLeavesCover(outputs: map<nat, Output>, groups: map<nat, Group>, shared: set<nat>, graph: set<nat>,
                          id: nat)
    requires Covers(outputs, groups, shared, graph) && id in outputs
    ensures Covers(outputs - {id}, groups, shared, graph - outputs[id].nodes)
    ensures !outputs[id].published ==> graph - outputs[id].nodes == graph
  {
    if outputs[id].published {
      OwnerRemoved(OutputNodes(outputs), id);
      assert OutputNodes(outputs - {id}) == OutputNodes(outputs) - {id};
    } else {
      assert OutputNodes(outputs - {id}) == OutputNodes(outputs);
    }
  }

  lemma GroupLeavesCover(outputs: map<nat, Output>, groups: map<nat, Group>, shared: set<nat>, graph: set<nat>, g: nat)
    requires Covers(outputs, groups, shared, graph) && g in groups
    ensures Covers(outputs, groups - {g}, shared, if groups[g].graphPublished then graph - groups[g].nodes else graph)
  {
    if groups[g].graphPublished {
      OwnerRemoved(GroupNodes(groups), g);
      assert GroupNodes(groups - {g}) == GroupNodes(groups) - {g};
    } else {
      assert GroupNodes(groups - {g}) == GroupNodes(groups);
    }
  }

  // An unpublished group adds nothing.
  lemma GroupJoinsCover(outputs: map<nat, Output>, groups: map<nat, Group>, shared: set<nat>, graph: set<nat>,
                        g: nat, group: Group)
    requires Covers(outputs, groups, shared, graph) && g !in groups && !group.graphPublished
    ensures Covers(outputs, groups[g := group], shared, graph)
  {
    assert GroupNodes(groups[g := group]) == GroupNodes(groups);
  }

  // An output whose publication failed adds nothing.
  lemma HiddenOutputJoinsCover(outputs: map<nat, Output>, groups: map<nat, Group>, shared: set<nat>, graph: set<nat>,
                               id: nat, o: Output, g: nat, group: Group)
    requires Covers(outputs, groups, shared, graph) && id !in outputs && g in groups
    requires !o.published && o.nodes !! graph
    requires group.nodes == groups[g].nodes && group.graphPublished == groups[g].graphPublished
    ensures Covers(outputs[id := o], groups[g := group], shared, graph)
  {
    assert OutputNodes(outputs[id := o]) == OutputNodes(outputs);
    assert GroupNodes(groups[g := group]) == GroupNodes(groups);
  }

  // A published output adds its nodes, and those of its group if the group is new.
  lemma OutputJoinsCover(outputs: map<nat, Output>, groups: map<nat, Group>, shared: set<nat>, graph: set<nat>,
                         id: nat, o: Output, g: nat, group: Group)
    requires Covers(outputs, groups, shared, graph) && id !in outputs && g in groups
    requires forall i :: i in outputs ==> outputs[i].published
    requires o.published && o.nodes !! graph
    requires group.nodes == groups[g].nodes && group.graphPublished
    requires !groups[g].graphPublished ==> group.nodes !! graph && group.nodes !! o.nodes
    ensures Covers(outputs[id := o], groups[g := group], shared,
                   graph + o.nodes + if groups[g].graphPublished then {} else group.nodes)
  {
    OwnerAdded(OutputNodes(outputs), id, o.nodes);
    assert OutputNodes(outputs[id := o]) == OutputNodes(outputs)[id := o.nodes];
    if groups[g].graphPublished {
      assert GroupNodes(groups[g := group]) == GroupNodes(groups);
    } else {
      OwnerAdded(GroupNodes(groups), g, group.nodes);
      assert GroupNodes(groups[g := group]) == GroupNodes(groups)[g := group.nodes];
    }
  }

  // ---- Steps ----

  // A quiet step keeps the picture if it keeps the slot, or nothing hangs on it.
  lemma QuietKeepsGraph(s: Sys, t: Sys)
    requires Drawn(s) && Quiet(s, t)
    requires t.changing == s.changing || forall id :: id in s.outputs ==> s.outputs[id].published
    requires s.unpolled <= t.unpolled
    requires forall id :: id in s.outputs && !s.outputs[id].published ==>
               (t.outputs[id].branch.state.Retiring? || t.outputs[id].branch.state.Gone? ==>
                 t.outputs[id].branch.fault.Some? || s.outputs[id].branch.state.Retiring?
                   || s.outputs[id].branch.state.Gone?)
    requires t.prep.Some? ==> SnapshotCurrent(t, t.prep.value)
    ensures Drawn(t)
  {
    QuietKeepsCover(s, t);
    forall id | id in t.outputs && !t.outputs[id].published
      ensures t.changing == Some(id) && Doomed(t, t.outputs[id])
    {
      assert SameOutput(s.outputs[id], t.outputs[id]);
      assert Doomed(s, s.outputs[id]);
      if t.outputs[id].groupId in s.groups {
        assert SameGroup(s.groups[t.outputs[id].groupId], t.groups[t.outputs[id].groupId]);
      }
    }
  }

  lemma QuietKeepsSnapshot(s: Sys, t: Sys, task: Task)
    requires SnapshotCurrent(s, task) && Quiet(s, t)
    ensures SnapshotCurrent(t, task)
  {
    forall g | g in task.groups && g in t.groups && !task.exchange.release
      ensures t.groups[g].graphPublished
    {
      assert SameGroup(s.groups[g], t.groups[g]);
    }
  }

  // Only the preparation (and what the graph does not see) changed.
  lemma TaskChangeKeepsGraph(s: Sys, t: Sys)
    requires Drawn(s)
    requires t.outputs == s.outputs && t.groups == s.groups && t.shared == s.shared && t.graph == s.graph
    requires t.version == s.version && t.unpolled == s.unpolled && t.changing == s.changing
    requires t.prep.Some? ==> SnapshotCurrent(s, t.prep.value)
    ensures Drawn(t)
  {
  }

  lemma ReleaseKeepsGraph(s: Sys)
    requires Drawn(s) && s.prep.Some?
    ensures Drawn(ReleaseWorker(s))
  {
  }

  lemma RejectKeepsGraph(s: Sys, id: nat, f: Fault)
    requires Drawn(s)
    ensures Drawn(Reject(s, id, f))
  {
    RejectIsQuiet(s, id, f);
    if s.prep.Some? { QuietKeepsSnapshot(s, Reject(s, id, f), s.prep.value); }
    QuietKeepsGraph(s, Reject(s, id, f));
  }

  lemma AdmittedSnapshot(s: Sys, task: Task, g: nat)
    requires SnapshotCurrent(s, task)
    ensures SnapshotCurrent(s, task.(target := g, exchange := X.Construct(task.exchange)))
  {
  }

  lemma RefusedKeepsGraph(s: Sys, id: nat, f: Fault)
    requires Drawn(s) && s.prep.Some?
    ensures Drawn(ReleaseWorker(Reject(s, id, f)))
  {
    RejectKeepsGraph(s, id, f);
    RejectIsQuiet(s, id, f);
    ReleaseKeepsGraph(Reject(s, id, f));
  }

  lemma PlannedKeepsGraph(s: Sys, r: AdmitReading)
    requires Drawn(s)
    ensures Drawn(LookAtPlanned(s, r))
  {
    if s.prep.Some? && s.prep.value.exchange.stage.Planned? {
      PlannedEffect(s, r);
      var task := s.prep.value;
      var verdict := Admission(s, task, r);
      var t := Judging(s, r);
      TaskChangeKeepsGraph(s, t);
      if verdict.Failure? {
        RefusedKeepsGraph(t, task.id, verdict.error);
        RejectIsQuiet(t, task.id, verdict.error);
        assert LookAtPlanned(s, r) == ReleaseWorker(Reject(t, task.id, verdict.error));
      } else {
        AdmittedSnapshot(s, task, verdict.value);
        TaskChangeKeepsGraph(s, LookAtPlanned(s, r));
      }
    }
  }

  // Every output is published, the graph is covered: all that Drawn says when no preparation matters.
  ghost predicate FullyDrawn(s: Sys) {
    Covers(s.outputs, s.groups, s.shared, s.graph) && forall i :: i in s.outputs ==> s.outputs[i].published
  }

  // A released preparation only has to remember a version no newer than the graph's.
  ghost predicate Releasable(s: Sys, task: Task) {
    && task.version <= s.version
    && (task.version == s.version ==> task.graph == s.graph)
    && (task.plan.Success? ==> Conforms(task, task.plan.value))
  }

  lemma RejectReleasedKeepsGraph(s: Sys, id: nat, f: Fault, unpolled: set<nat>)
    requires FullyDrawn(s) && s.prep.Some? && Releasable(s, s.prep.value)
    ensures Drawn(ReleaseWorker(Reject(s, id, f)).(unpolled := unpolled))
  {
    RejectIsQuiet(s, id, f);
    QuietKeepsCover(s, Reject(s, id, f));
  }

  // With the slot held by an output that is not there, every output is published.
  lemma InsertPublishedKeepsGraph(s: Sys, task: Task, r: PublishReading)
    requires FullyDrawn(s) && s.prep == Some(task) && task.id !in s.outputs && Releasable(s, task)
    requires task.plan.Success? && Target(task) in s.groups && task.version == s.version
    requires s.groups[Target(task)].graphPublished == task.plan.value.encoding.ExistingGroup?
    requires task.plan.value.encoding.NewGroup? ==> s.groups[Target(task)].nodes == task.plan.value.encoding.nodes
    requires NewOutput(task, r).published
    ensures var t := InsertOutput(s, task, r); Drawn(ReleaseWorker(t).(unpolled := t.groups.Keys))
  {
    var g := Target(task);
    var o := NewOutput(task, r);
    var group := JoinedGroup(s.groups[g], task, r);
    OutputJoinsCover(s.outputs, s.groups, s.shared, s.graph, task.id, o, g, group);
    assert CandidateGraph(task) == s.graph + o.nodes + if s.groups[g].graphPublished then {} else group.nodes;
  }

  lemma InsertHiddenKeepsGraph(s: Sys, task: Task, r: PublishReading)
    requires FullyDrawn(s) && s.prep == Some(task) && task.id !in s.outputs && Releasable(s, task)
    requires s.changing == Some(task.id) && task.version == s.version
    requires task.plan.Success? && Target(task) in s.groups
    requires task.plan.value.encoding.NewGroup? ==> s.groups[Target(task)].branch.state.Active?
    requires !NewOutput(task, r).published
    ensures var t := InsertOutput(s, task, r); Drawn(ReleaseWorker(t).(unpolled := t.groups.Keys))
  {
    var g := Target(task);
    HiddenOutputJoinsCover(s.outputs, s.groups, s.shared, s.graph, task.id, NewOutput(task, r), g,
                           JoinedGroup(s.groups[g], task, r));
  }

  lemma JoinKeepsGraph(s: Sys, r: PublishReading)
    requires FullyDrawn(s) && s.prep.Some? && s.prep.value.plan.Success? && Releasable(s, s.prep.value)
    requires s.prep.value.plan.value.encoding.NewGroup? ==> s.prep.value.target !in s.groups
    ensures FullyDrawn(JoinGroup(s, s.prep.value, r))
  {
    if s.prep.value.plan.value.encoding.NewGroup? {
      var g := s.prep.value.target;
      GroupJoinsCover(s.outputs, s.groups, s.shared, s.graph, g, JoinGroup(s, s.prep.value, r).groups[g]);
    }
  }

  lemma ConstructedKeepsGraph(s: Sys, r: PublishReading)
    requires Slot(s) && Grouped(s) && Drawn(s)
    ensures Drawn(LookAtConstructed(s, r))
  {
    hide Reject, InsertOutput;
    if s.prep.Some? && s.prep.value.exchange.stage.Constructed? {
      var task := s.prep.value;
      SettleEffect(s, r);
      assert FullyDrawn(s) && Releasable(s, task);
      if task.broken.Some? || task.plan.Failure? {
        var f := if task.broken.Some? then task.broken.value else Fault(CANCELLED, Publication);
        RejectReleasedKeepsGraph(s, task.id, f, Reject(s, task.id, f).groups.Keys);
      } else if Refusal(s, task, r).Some? {
        var f := Refusal(s, task, r).value;
        RejectReleasedKeepsGraph(s, task.id, f, Reject(s, task.id, f).groups.Keys);
      } else {
        var t := JoinGroup(s, task, r);
        JoinKeepsGraph(s, r);
        if r.ending.OutputNotInserted? {
          RejectReleasedKeepsGraph(t, task.id, r.ending.fault, Reject(t, task.id, r.ending.fault).groups.Keys);
        } else if NewOutput(task, r).published {
          InsertPublishedKeepsGraph(t, task, r);
        } else {
          InsertHiddenKeepsGraph(t, task, r);
        }
      }
    }
  }

  // While an output's publication is failed its poll cannot free the slot.
  lemma ExamineKeepsGraph(s: Sys, id: nat, r: OutputReading)
    requires Slot(s) && Drawn(s) && id in s.outputs && s.unpolled == {}
    ensures Drawn(Examine(s, id, r).0) && id in Examine(s, id, r).0.outputs
  {
    ExamineIsQuiet(s, id, r);
    var t := Examine(s, id, r).0;
    if s.prep.Some? { QuietKeepsSnapshot(s, t, s.prep.value); }
    ExamineSlot(s, id, r);
    QuietKeepsGraph(s, t);
  }

  lemma ExamineSlot(s: Sys, id: nat, r: OutputReading)
    requires id in s.outputs
    ensures var t := Examine(s, id, r).0;
            t.changing == s.changing || (s.changing == Some(id) && s.outputs[id].branch.fault.None?)
  {
    PromoteIsQuiet(s, id, r);
    var a := Promote(s, id, r);
    OverdueIsQuiet(a, id, r);
    var b := FailOverdue(a, id, r);
    PollBranchIsQuiet(b, id, r);
    NoteIsQuiet(PollBranch(b, id, r).0, id);
  }

  lemma LeaveKeepsCover(s: Sys, id: nat)
    requires Covers(s.outputs, s.groups, s.shared, s.graph) && id in s.outputs
    ensures var t := Leave(s, id); Covers(t.outputs, t.groups, t.shared, t.graph)
  {
    OutputLeavesCover(s.outputs, s.groups, s.shared, s.graph, id);
    assert GroupNodes(Leave(s, id).groups) == GroupNodes(s.groups);
  }

  lemma RetireKeepsCover(s: Sys, id: nat)
    requires Covers(s.outputs, s.groups, s.shared, s.graph) && id in s.outputs
    ensures var t := Retire(s, id);
            Covers(t.outputs, t.groups, t.shared, t.graph) && t.outputs == s.outputs - {id} && t.prep == s.prep
            && t.version == s.version + 1 && (t.changing == s.changing || s.changing == Some(id))
  {
    LeaveKeepsCover(s, id);
    ConcludeEffect(Leave(s, id), SnapshotOf(id, s.outputs[id].(state := Retired)), s.outputs[id].groupId);
  }

  lemma RetireKeepsGraph(s: Sys, id: nat)
    requires Drawn(s) && id in s.outputs && s.unpolled == {}
    ensures Drawn(Retire(s, id))
  {
    RetireKeepsCover(s, id);
  }

  lemma PollOutputKeepsGraph(s: Sys, id: nat, r: OutputReading)
    requires Slot(s) && Grouped(s) && Drawn(s)
    ensures Drawn(PollOutput(s, id, r))
  {
    if id in s.outputs && s.unpolled == {} {
      ExamineKeepsGraph(s, id, r);
      var (t, retired) := Examine(s, id, r);
      ExamineKeepsSlot(s, id, r);
      ExamineIsQuiet(s, id, r);
      QuietKeepsGroups(s, t);
      if retired { RetireKeepsGraph(t, id); }
    }
  }

  lemma FailMembersKeepsGraph(s: Sys, g: nat)
    requires Drawn(s) && g in s.groups && s.groups[g].branch.fault.Some?
    ensures Drawn(FailMembers(s, g))
    ensures Drawn(FailMembers(s, g).(unpolled := s.unpolled - {g}))
  {
    FailMembersIsQuiet(s, g);
    var t := FailMembers(s, g);
    if s.prep.Some? { QuietKeepsSnapshot(s, t, s.prep.value); }
    QuietKeepsGraph(s, t);
  }

  lemma EraseKeepsGraph(s: Sys, g: nat, group: Group)
    requires Drawn(s) && Grouped(s) && g in s.groups && s.groups[g].outputCount == 0
    requires group.nodes == s.groups[g].nodes && group.graphPublished == s.groups[g].graphPublished
    ensures Drawn(EraseGroup(s, g, group))
  {
    EraseEffect(s, g, group);
    GroupLeavesCover(s.outputs, s.groups, s.shared, s.graph, g);
    MemberlessGroup(s, g);
  }

  lemma EraseEffect(s: Sys, g: nat, group: Group)
    ensures var t := EraseGroup(s, g, group);
            && t.outputs == s.outputs && t.groups == s.groups - {g} && t.changing == s.changing && t.prep == s.prep
            && t.unpolled == s.unpolled && t.shared == s.shared
            && t.graph == (if group.graphPublished then s.graph - group.nodes else s.graph)
            && t.version == (if group.graphPublished then s.version + 1 else s.version)
  {
  }

  lemma MemberlessGroup(s: Sys, g: nat)
    requires Grouped(s) && g in s.groups && s.groups[g].outputCount == 0
    ensures forall id :: id in s.outputs ==> s.outputs[id].groupId != g
  {
    assert forall id :: id in s.outputs && s.outputs[id].groupId == g ==> id in Members(s.outputs, g);
  }

  lemma UnpolledShrinks(s: Sys, g: nat)
    requires Drawn(s) && Grouped(s)
    requires g in s.groups ==> s.groups[g].branch.fault.None?
    ensures Drawn(s.(unpolled := s.unpolled - {g}))
  {
  }

  lemma PollGroupKeepsGraph(s: Sys, g: nat, r: GroupReading)
    requires Drawn(s) && Grouped(s)
    ensures Drawn(PollGroup(s, g, r))
  {
    var u := s.(unpolled := s.unpolled - {g});
    if g !in s.groups || s.groups[g].branch.fault.None? { UnpolledShrinks(s, g); }
    if g in s.groups {
      var t := u;
      if s.groups[g].branch.fault.Some? {
        t := FailMembers(u, g);
        FailMembersKeepsGraph(s, g);
        assert t == FailMembers(s, g).(unpolled := s.unpolled - {g});
        FailMembersIsQuiet(u, g);
        QuietKeepsGroups(s, t);
      }
      if s.groups[g].outputCount == 0 { UnusedGroupKeepsGraph(t, g, r); }
    }
  }

  lemma UnusedGroupKeepsGraph(s: Sys, g: nat, r: GroupReading)
    requires Drawn(s) && Grouped(s) && g in s.groups && s.groups[g].outputCount == 0
    ensures Drawn(PollUnused(s, g, r))
  {
    var (polled, retired) := Polled(s.groups[g], r);
    GroupPollIsQuiet(s.groups[g], r);
    if retired {
      EraseKeepsGraph(s, g, polled);
    } else {
      var v := s.(groups := s.groups[g := polled]);
      if s.prep.Some? { QuietKeepsSnapshot(s, v, s.prep.value); }
      QuietKeepsGraph(s, v);
    }
  }

  lemma NotifyKeepsGraph(s: Sys)
    requires Slot(s) && Drawn(s)
    ensures Drawn(Notify(s))
  {
    NotifyIsQuiet(s);
    if s.prep.Some? { QuietKeepsSnapshot(s, Notify(s), s.prep.value); }
    QuietKeepsGraph(s, Notify(s));
  }

  lemma DrainKeepsGraph(s: Sys, id: nat, generation: Option<nat>, closing: Option<Fault>)
    requires Drawn(s) && id in s.outputs
    ensures Drawn(DrainOutput(s, id, generation, closing))
  {
    DrainIsQuiet(s, id, generation, closing);
    var t := DrainOutput(s, id, generation, closing);
    if s.prep.Some? { QuietKeepsSnapshot(s, t, s.prep.value); }
    QuietKeepsGraph(s, t);
  }

  lemma TakeKeepsGraph(s: Sys, r: TakeReading)
    requires Slot(s) && Drawn(s) && Listed(s)
    ensures Drawn(Take(s, r))
  {
    if CanTake(s) {
      var change := C.TakeChange(s.ctl).1.value;
      var t := Taken(s);
      assert FullyDrawn(s) && Drawn(t);
      if change.addition {
        var u := BeginPreparation(t, change.id, r.begin);
        BeginIsQuiet(t, change.id, r.begin);
        QuietKeepsGraph(t, u);
        BeginKeepsSlot(t, change.id, r.begin);
        NotifyKeepsGraph(u);
      } else if change.id !in s.outputs {
        RejectKeepsGraph(t, change.id, Fault(NO_BRANCH, Drain));
        RejectDecides(t, change.id, Fault(NO_BRANCH, Drain));
        NotifyKeepsGraph(Reject(t, change.id, Fault(NO_BRANCH, Drain)));
      } else {
        DrainKeepsGraph(t, change.id, r.generation, r.closing);
      }
    }
  }

  lemma FinishKeepsGraph(s: Sys)
    requires Slot(s) && Drawn(s)
    ensures Drawn(BeginFinish(s))
  {
    var t := s.(finishing := true, ctl := C.SetEnabled(s.ctl, false));
    var (ctl, change) := C.TakeChange(t.ctl);
    if change.Some? {
      var u := Reject(t.(ctl := ctl), change.value.id, Fault(CANCELLED, Publication));
      RejectKeepsGraph(t.(ctl := ctl), change.value.id, Fault(CANCELLED, Publication));
      NotifyIsQuiet(u);
      QuietKeepsGraph(u, Notify(u));
    } else {
      NotifyKeepsGraph(t);
    }
  }

  lemma FinishOutputKeepsGraph(s: Sys, id: nat, cause: Option<Fault>, generation: Option<nat>, closing: Option<Fault>)
    requires Drawn(s)
    ensures Drawn(FinishOutput(s, id, cause, generation, closing))
  {
    var t := FinishOutput(s, id, cause, generation, closing);
    if id in s.outputs && s.finishing && cause.None? && s.outputs[id].branch.state.Active? {
      DrainKeepsGraph(s, id, generation, closing);
    } else {
      if s.prep.Some? { QuietKeepsSnapshot(s, t, s.prep.value); }
      QuietKeepsGraph(s, t);
    }
  }

  lemma WorkKeepsGraph(s: Sys, r: WorkerReading)
    requires Drawn(s)
    ensures Drawn(WorkerTurn(s, r))
  {
    WorkerEffect(s, r);
    TaskChangeKeepsGraph(s, WorkerTurn(s, r));
  }

  lemma {:induction false} StepKeepsGraph(s: Sys, step: Step)
    requires Valid(s)
    ensures Drawn(Apply(s, step))
  {
    hide Slot, Grouped, Listed, LookAtPlanned, LookAtConstructed, PollGroup, PollOutput, Take, BeginFinish,
         FinishOutput, Notify, WorkerTurn;
    match step
    case Planned(r) => PlannedKeepsGraph(s, r);
    case Constructed(r) => ConstructedKeepsGraph(s, r);
    case PollGroupStep(g, r) => PollGroupKeepsGraph(s, g, r);
    case PollOutputStep(id, r) => PollOutputKeepsGraph(s, id, r);
    case TakeStep(r) => TakeKeepsGraph(s, r);
    case FinishStep => FinishKeepsGraph(s);
    case FinishOutputStep(id, cause, generation, closing) =>
      FinishOutputKeepsGraph(s, id, cause, generation, closing);
    case NotifyStep => NotifyKeepsGraph(s);
    case Budget(elapsed) =>
      ExpireIsQuiet(s, elapsed);
      TaskChangeKeepsGraph(s, Expire(s, elapsed));
    case Collect => TaskChangeKeepsGraph(s, Reap(s));
    case Work(r) => WorkKeepsGraph(s, r);
    case _ => ForeignKeepsGraph(s, step);
  }

  // Other threads record failures; only the control thread moves a branch on.
  lemma ForeignKeepsStates(s: Sys, step: Step)
    requires Foreign(step) && !step.Work?
    ensures forall id :: id in s.outputs ==>
              id in Apply(s, step).outputs && Apply(s, step).outputs[id].branch.state == s.outputs[id].branch.state
  {
  }

  lemma ForeignKeepsGraph(s: Sys, step: Step)
    requires Drawn(s) && Foreign(step) && !step.Work?
    ensures Drawn(Apply(s, step))
  {
    ForeignKeepsStates(s, step);
    hide Apply;
    ForeignIsQuiet(s, step);
    if s.prep.Some? { QuietKeepsSnapshot(s, Apply(s, step), s.prep.value); }
    QuietKeepsGraph(s, Apply(s, step));
  }
}
