/** Every step keeps the group accounting. */
module ControllerGroups {
  import opened Wrappers
  import opened OutputTypes
  import opened ControllerModel
  import opened ControllerInvariant
  import opened ControllerEffects
  import B = RuntimeBranch
  import C = ControlModel

  // ---- Counting members ----

  lemma MemberAdded(outputs: map<nat, Output>, id: nat, o: Output, g: nat)
    requires id !in outputs
    ensures |Members(outputs[id := o], g)| == |Members(outputs, g)| + if o.groupId == g then 1 else 0
  {
    var more := outputs[id := o];
    if o.groupId == g {
      assert Members(more, g) == Members(outputs, g) + {id};
    } else {
      assert Members(more, g) == Members(outputs, g);
    }
  }

  lemma MemberRemoved(outputs: map<nat, Output>, id: nat, g: nat)
    requires id in outputs
    ensures |Members(outputs - {id}, g)| == |Members(outputs, g)| - if outputs[id].groupId == g then 1 else 0
    ensures outputs[id].groupId == g ==> |Members(outputs, g)| > 0
  {
    var less := outputs - {id};
    if outputs[id].groupId == g {
      assert Members(outputs, g) == Members(less, g) + {id};
    } else {
      assert Members(less, g) == Members(outputs, g);
    }
  }

  lemma SameMembers(outputs: map<nat, Output>, others: map<nat, Output>, g: nat)
    requires SameOutputs(outputs, others)
    ensures Members(outputs, g) == Members(others, g)
  {
    assert forall id :: id in Members(outputs, g) <==> id in Members(others, g);
  }

  lemma QuietKeepsCounts(s: Sys, t: Sys)
    requires Counted(s.outputs, s.groups, s.nextGroup) && Quiet(s, t)
    ensures Counted(t.outputs, t.groups, t.nextGroup)
  {
    forall g | g in t.groups
      ensures t.groups[g].outputCount == |Members(t.outputs, g)|
    {
      SameMembers(s.outputs, t.outputs, g);
      assert SameGroup(s.groups[g], t.groups[g]);
    }
    assert forall id :: id in t.outputs ==> SameOutput(s.outputs[id], t.outputs[id]);
  }

  lemma OutputJoins(outputs: map<nat, Output>, groups: map<nat, Group>, n: nat, id: nat, o: Output, grown: Group)
    requires Counted(outputs, groups, n) && id !in outputs && o.groupId in groups && !o.branch.state.Prepared?
    requires !groups[o.groupId].draining && !grown.draining && !grown.branch.state.Prepared?
    requires grown.outputCount == groups[o.groupId].outputCount + 1
    ensures Counted(outputs[id := o], groups[o.groupId := grown], n)
  {
    forall g | g in groups
      ensures |Members(outputs[id := o], g)| == groups[g].outputCount + if g == o.groupId then 1 else 0
    {
      MemberAdded(outputs, id, o, g);
    }
  }

  lemma GroupJoins(outputs: map<nat, Output>, groups: map<nat, Group>, n: nat, g: nat, group: Group)
    requires Counted(outputs, groups, n) && g !in groups && 0 < g < n
    requires group.outputCount == 0 && !group.branch.state.Prepared? && (group.draining ==> B.Stopping(group.branch))
    ensures Counted(outputs, groups[g := group], n)
  {
    assert Members(outputs, g) == {};
  }

  lemma OutputLeaves(outputs: map<nat, Output>, groups: map<nat, Group>, n: nat, id: nat)
    requires Counted(outputs, groups, n) && id in outputs
    ensures var g := outputs[id].groupId;
            groups[g].outputCount > 0
            && Counted(outputs - {id}, groups[g := groups[g].(outputCount := groups[g].outputCount - 1)], n)
  {
    forall g | g in groups
      ensures |Members(outputs - {id}, g)| == groups[g].outputCount - if g == outputs[id].groupId then 1 else 0
      ensures g == outputs[id].groupId ==> groups[g].outputCount > 0
    {
      MemberRemoved(outputs, id, g);
    }
  }

  // Nothing names a group that counts no member.
  lemma GroupLeaves(outputs: map<nat, Output>, groups: map<nat, Group>, n: nat, g: nat)
    requires Counted(outputs, groups, n) && g in groups && groups[g].outputCount == 0
    ensures Counted(outputs, groups - {g}, n)
  {
    assert forall id :: id in outputs && outputs[id].groupId == g ==> id in Members(outputs, g);
  }

  // ---- Steps ----

  lemma QuietKeepsGroups(s: Sys, t: Sys)
    requires Grouped(s) && Quiet(s, t)
    requires t.prep.Some? ==> TargetFresh(t.prep.value, t.groups, t.nextGroup)
    requires t.unpolled <= s.unpolled
    ensures Grouped(t)
  {
    QuietKeepsCounts(s, t);
  }

  lemma PlannedKeepsGroups(s: Sys, r: AdmitReading)
    requires Slot(s) && Grouped(s)
    ensures Grouped(LookAtPlanned(s, r))
  {
    if s.prep.Some? && s.prep.value.exchange.stage.Planned? {
      var task := s.prep.value;
      var t := Judging(s, r);
      PlannedEffect(s, r);
      match Admission(s, task, r)
      case Failure(f) =>
        hide Reject, Choice;
        RejectIsQuiet(t, task.id, f);
        QuietTwice(s, t, Reject(t, task.id, f));
        QuietKeepsGroups(s, LookAtPlanned(s, r));
      case Success(g) => QuietKeepsGroups(s, LookAtPlanned(s, r));
    }
  }

  lemma RejectReleasedKeepsGroups(s: Sys, id: nat, f: Fault)
    requires s.prep.Some? && 0 < s.nextGroup && Counted(s.outputs, s.groups, s.nextGroup)
    requires forall g :: g in s.unpolled ==> g < s.nextGroup
    ensures Grouped(ReleaseWorker(Reject(s, id, f)))
  {
    RejectIsQuiet(s, id, f);
    QuietKeepsCounts(s, Reject(s, id, f));
  }

  lemma InsertKeepsGroups(s: Sys, task: Task, r: PublishReading)
    requires task.plan.Success? && Target(task) in s.groups && task.id !in s.outputs
    requires s.prep == Some(task) && 0 < s.nextGroup && Counted(s.outputs, s.groups, s.nextGroup)
    requires forall g :: g in s.unpolled ==> g < s.nextGroup
    requires !s.groups[Target(task)].draining
    ensures Grouped(ReleaseWorker(InsertOutput(s, task, r)))
  {
    var g := Target(task);
    OutputJoins(s.outputs, s.groups, s.nextGroup, task.id, NewOutput(task, r), JoinedGroup(s.groups[g], task, r));
  }

  lemma ConstructedKeepsGroups(s: Sys, r: PublishReading)
    requires Slot(s) && Grouped(s)
    ensures Grouped(LookAtConstructed(s, r))
  {
    hide Reject, InsertOutput;
    if s.prep.Some? && s.prep.value.exchange.stage.Constructed? {
      var task := s.prep.value;
      if task.broken.Some? || task.plan.Failure? {
        RejectReleasedKeepsGroups(s, task.id, if task.broken.Some? then task.broken.value
            else Fault(CANCELLED, Publication));
      } else if Refusal(s, task, r).Some? {
        RejectReleasedKeepsGroups(s, task.id, Refusal(s, task, r).value);
      } else {
        var t := JoinGroup(s, task, r);
        if task.plan.value.encoding.NewGroup? {
          GroupJoins(s.outputs, s.groups, s.nextGroup, task.target, t.groups[task.target]);
        }
        if r.ending.OutputNotInserted? {
          RejectReleasedKeepsGroups(t, task.id, r.ending.fault);
        } else {
          InsertKeepsGroups(t, task, r);
        }
      }
    }
  }

  lemma RetireKeepsGroups(s: Sys, id: nat)
    requires Grouped(s) && id in s.outputs
    ensures Grouped(Retire(s, id))
  {
    OutputLeaves(s.outputs, s.groups, s.nextGroup, id);
  }

  lemma PollOutputKeepsGroups(s: Sys, id: nat, r: OutputReading)
    requires Grouped(s)
    ensures Grouped(PollOutput(s, id, r))
  {
    if id in s.outputs && s.unpolled == {} {
      ExamineIsQuiet(s, id, r);
      var (t, retired) := Examine(s, id, r);
      QuietKeepsGroups(s, t);
      if retired { RetireKeepsGroups(t, id); }
    }
  }

  lemma EraseKeepsGroups(s: Sys, g: nat, group: Group)
    requires Grouped(s) && g in s.groups && s.groups[g].outputCount == 0
    ensures Grouped(EraseGroup(s, g, group))
  {
    GroupLeaves(s.outputs, s.groups, s.nextGroup, g);
  }

  lemma PollGroupKeepsGroups(s: Sys, g: nat, r: GroupReading)
    requires Grouped(s)
    ensures Grouped(PollGroup(s, g, r))
  {
    hide Polled, FailMembers, EraseGroup;
    var s := s.(unpolled := s.unpolled - {g});
    if g in s.groups {
      var t := s;
      if s.groups[g].branch.fault.Some? {
        t := FailMembers(s, g);
        FailMembersIsQuiet(s, g);
        QuietKeepsGroups(s, t);
      }
      if s.groups[g].outputCount == 0 {
        var (polled, retired) := Polled(s.groups[g], r);
        if retired {
          EraseKeepsGroups(t, g, polled);
        } else {
          GroupPollIsQuiet(s.groups[g], r);
          QuietKeepsGroups(t, t.(groups := s.groups[g := polled]));
        }
      }
    }
  }

  lemma TakeKeepsGroups(s: Sys, r: TakeReading)
    requires Grouped(s)
    ensures Grouped(Take(s, r))
  {
    if CanTake(s) {
      var change := C.TakeChange(s.ctl).1.value;
      var t := Taken(s);
      if change.addition {
        var u := BeginPreparation(t, change.id, r.begin);
        BeginIsQuiet(t, change.id, r.begin);
        QuietKeepsGroups(t, u);
        NotifyIsQuiet(u);
        QuietKeepsGroups(u, Notify(u));
      } else if change.id !in s.outputs {
        var u := Reject(t, change.id, Fault(NO_BRANCH, Drain));
        RejectIsQuiet(t, change.id, Fault(NO_BRANCH, Drain));
        QuietKeepsGroups(t, u);
        NotifyIsQuiet(u);
        QuietKeepsGroups(u, Notify(u));
      } else {
        DrainIsQuiet(t, change.id, r.generation, r.closing);
        QuietKeepsGroups(t, Take(s, r));
      }
    }
  }

  lemma FinishKeepsGroups(s: Sys)
    requires Grouped(s)
    ensures Grouped(BeginFinish(s))
  {
    var t := s.(finishing := true, ctl := C.SetEnabled(s.ctl, false));
    var (ctl, change) := C.TakeChange(t.ctl);
    var u := if change.Some? then Reject(t.(ctl := ctl), change.value.id, Fault(CANCELLED, Publication)) else t;
    if change.Some? {
      RejectIsQuiet(t.(ctl := ctl), change.value.id, Fault(CANCELLED, Publication));
    }
    QuietKeepsGroups(s, u);
    NotifyIsQuiet(u);
    QuietKeepsGroups(u, Notify(u));
  }

  lemma WorkKeepsGroups(s: Sys, r: WorkerReading)
    requires Slot(s) && Grouped(s)
    ensures Grouped(WorkerTurn(s, r))
  {
  }

  lemma FinishOutputKeepsGroups(s: Sys, id: nat, cause: Option<Fault>, generation: Option<nat>, closing: Option<Fault>)
    requires Grouped(s)
    ensures Grouped(FinishOutput(s, id, cause, generation, closing))
  {
    var t := FinishOutput(s, id, cause, generation, closing);
    if id in s.outputs && s.finishing && cause.None? && s.outputs[id].branch.state.Active? {
      DrainIsQuiet(s, id, generation, closing);
    }
    QuietKeepsGroups(s, t);
  }

  lemma {:induction false} StepKeepsGroups(s: Sys, step: Step)
    requires Slot(s) && Grouped(s)
    ensures Grouped(Apply(s, step))
  {
    hide Slot, LookAtPlanned, LookAtConstructed, PollGroup, PollOutput, Take, BeginFinish, FinishOutput, Notify,
         WorkerTurn;
    match step
    case Planned(r) => PlannedKeepsGroups(s, r);
    case Constructed(r) => ConstructedKeepsGroups(s, r);
    case PollGroupStep(g, r) => PollGroupKeepsGroups(s, g, r);
    case PollOutputStep(id, r) => PollOutputKeepsGroups(s, id, r);
    case TakeStep(r) => TakeKeepsGroups(s, r);
    case FinishStep => FinishKeepsGroups(s);
    case FinishOutputStep(id, cause, generation, closing) =>
      FinishOutputKeepsGroups(s, id, cause, generation, closing);
    case NotifyStep =>
      NotifyIsQuiet(s);
      QuietKeepsGroups(s, Notify(s));
    case Budget(elapsed) =>
      ExpireIsQuiet(s, elapsed);
      QuietKeepsGroups(s, Expire(s, elapsed));
    case Collect =>
    case Work(r) => WorkKeepsGroups(s, r);
    case _ =>
      ForeignIsQuiet(s, step);
      QuietKeepsGroups(s, Apply(s, step));
  }
}
