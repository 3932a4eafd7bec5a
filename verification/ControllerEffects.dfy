/** What each building block of a step leaves alone; the invariant proofs start from here. */
module ControllerEffects {
  import opened Wrappers
  import opened OutputTypes
  import opened ControllerModel
  import B = RuntimeBranch
  import C = ControlModel
  import X = PreparationExchange

  // The same output, perhaps with another branch, state or generation.
  predicate SameOutput(o: Output, p: Output) {
    && p.groupId == o.groupId && p.nodes == o.nodes && p.published == o.published && p.deadline == o.deadline
    && p.lease == o.lease
    && B.Ahead(o.branch, p.branch)
    && (p.branch.state.Prepared? ==> o.branch.state.Prepared?)
    && (p.branch.state.Active? ==> o.branch.state.Active?)
  }

  // The same group, perhaps with another branch; it starts draining only when it has no member.
  predicate SameGroup(g: Group, h: Group) {
    && h.nodes == g.nodes && h.graphPublished == g.graphPublished && h.outputCount == g.outputCount
    && (g.draining ==> h.draining)
    && (h.draining ==> g.draining || (g.outputCount == 0 && B.Stopping(h.branch)))
    && B.Ahead(g.branch, h.branch)
    && (h.branch.state.Prepared? ==> g.branch.state.Prepared?)
  }

  ghost predicate SameOutputs(a: map<nat, Output>, b: map<nat, Output>) {
    (forall id :: id in a <==> id in b) && forall id :: id in a ==> SameOutput(a[id], b[id])
  }

  ghost predicate SameGroups(a: map<nat, Group>, b: map<nat, Group>) {
    (forall g :: g in a <==> g in b) && forall g :: g in a ==> SameGroup(a[g], b[g])
  }

  // No output or group comes or goes, and the graph stays.
  ghost predicate Quiet(s: Sys, t: Sys) {
    && SameOutputs(s.outputs, t.outputs) && SameGroups(s.groups, t.groups)
    && t.shared == s.shared && t.graph == s.graph && t.version == s.version && t.nextGroup >= s.nextGroup
  }

  lemma QuietTwice(s: Sys, t: Sys, u: Sys)
    requires Quiet(s, t) && Quiet(t, u)
    ensures Quiet(s, u)
  {
    forall id | id in s.outputs ensures SameOutput(s.outputs[id], u.outputs[id]) {
      assert SameOutput(s.outputs[id], t.outputs[id]) && SameOutput(t.outputs[id], u.outputs[id]);
    }
    forall g | g in s.groups ensures SameGroup(s.groups[g], u.groups[g]) {
      assert SameGroup(s.groups[g], t.groups[g]) && SameGroup(t.groups[g], u.groups[g]);
    }
  }

  lemma RejectIsQuiet(s: Sys, id: nat, f: Fault)
    ensures var t := Reject(s, id, f);
            Quiet(s, t) && t.outputs == s.outputs && t.prep == s.prep && t.changing == s.changing && t.clock == s.clock
            && t.unpolled == s.unpolled && t.nextGroup == s.nextGroup && t.finishing == s.finishing
            && t.ctl == C.Publish(s.ctl, Snapshot(id, Failed, f.stage, Some(f.error)))
  {
    hide AbandonGroup, C.Publish;
    AbandonEffect(Publish(s, Snapshot(id, Failed, f.stage, Some(f.error))).(
                    terminal := Some(Snapshot(id, Retired, f.stage, Some(f.error)))), f);
  }

  lemma AbandonEffect(s: Sys, f: Fault)
    ensures var t := AbandonGroup(s, f);
            && t == s.(groups := t.groups, terminalGroup := t.terminalGroup, changingGroup := None)
            && SameGroups(s.groups, t.groups)
  {
  }

  // What polling an output cannot touch.
  ghost predicate LeavesRest(s: Sys, t: Sys) {
    && t.prep == s.prep && t.groups == s.groups && t.nextGroup == s.nextGroup && t.unpolled == s.unpolled
    && t.terminal == s.terminal && t.terminalGroup == s.terminalGroup && t.changingGroup == s.changingGroup
    && t.finishing == s.finishing && t.retired == s.retired && s.clock <= t.clock
  }

  function Promoted(o: Output): Output {
    o.(state := Running, stage := Runtime)
  }

  function Freed(s: Sys, id: nat): Sys {
    if s.changing == Some(id) then s.(ctl := C.CompleteChange(s.ctl), changing := None) else s
  }

  // A promotion frees the slot, if it was the output's, and publishes Running.
  lemma PromoteShape(s: Sys, id: nat, r: OutputReading)
    requires id in s.outputs
    ensures var t := s.(clock := s.clock + r.first + r.second);
            || Promote(s, id, r) == t
            || (s.outputs[id].state.Waiting? && s.prep.None? && Before(t.clock - r.second, s.outputs[id].deadline)
                && Promote(s, id, r) == Publish(Freed(t, id).(outputs := s.outputs[id := Promoted(s.outputs[id])]),
                                                SnapshotOf(id, Promoted(s.outputs[id]))))
  {
  }

  lemma PromoteIsQuiet(s: Sys, id: nat, r: OutputReading)
    requires id in s.outputs
    ensures var t := Promote(s, id, r); Quiet(s, t) && LeavesRest(s, t) && id in t.outputs
  {
    hide Promote;
    PromoteShape(s, id, r);
  }

  lemma OverdueIsQuiet(s: Sys, id: nat, r: OutputReading)
    requires id in s.outputs
    ensures var t := FailOverdue(s, id, r);
            Quiet(s, t) && LeavesRest(s, t) && id in t.outputs && t.changing == s.changing
  {
    FailedIsSame(s.outputs[id], Fault(NO_MEDIA, Runtime));
    hide B.Fail;
  }

  lemma FailedIsSame(o: Output, f: Fault)
    ensures SameOutput(o, o.(branch := B.Fail(o.branch, f)))
  {
  }

  lemma PollBranchIsQuiet(s: Sys, id: nat, r: OutputReading)
    requires id in s.outputs
    ensures var t := PollBranch(s, id, r).0;
            Quiet(s, t) && LeavesRest(s, t) && id in t.outputs && t.changing == s.changing
  {
  }

  lemma NoteIsQuiet(s: Sys, id: nat)
    requires id in s.outputs
    ensures var t := NoteFailure(s, id); Quiet(s, t) && LeavesRest(s, t) && id in t.outputs && t.changing == s.changing
  {
  }

  lemma ExamineIsQuiet(s: Sys, id: nat, r: OutputReading)
    requires id in s.outputs
    ensures var t := Examine(s, id, r).0; Quiet(s, t) && LeavesRest(s, t) && id in t.outputs
  {
    var a := Promote(s, id, r);
    PromoteIsQuiet(s, id, r);
    var b := FailOverdue(a, id, r);
    OverdueIsQuiet(a, id, r);
    QuietTwice(s, a, b);
    var c := PollBranch(b, id, r).0;
    PollBranchIsQuiet(b, id, r);
    QuietTwice(s, b, c);
    NoteIsQuiet(c, id);
    QuietTwice(s, c, NoteFailure(c, id));
  }

  // Failures and traffic only touch branches.
  ghost predicate OnlyBranches(s: Sys, t: Sys) {
    && t == s.(outputs := t.outputs, groups := t.groups)
    && SameOutputs(s.outputs, t.outputs) && SameGroups(s.groups, t.groups)
    && forall id :: id in s.outputs ==> t.outputs[id].state == s.outputs[id].state
  }

  lemma OutputFaultEffect(s: Sys, id: nat, f: Fault)
    ensures OnlyBranches(s, OutputFault(s, id, f))
  {
  }

  lemma GroupFaultEffect(s: Sys, g: nat, f: Fault, hard: bool)
    ensures OnlyBranches(s, GroupFault(s, g, f, hard))
  {
  }

  lemma TrafficEffect(s: Sys, id: nat, g: nat, amount: nat)
    ensures OnlyBranches(s, Traffic(s, id, g, amount))
  {
  }

  lemma BranchStepEffect(s: Sys, step: Step)
    requires step.OutputFails? || step.GroupFails? || step.Count?
    ensures OnlyBranches(s, Apply(s, step))
  {
    match step
    case OutputFails(id, f) => OutputFaultEffect(s, id, f);
    case GroupFails(g, f, hard) => GroupFaultEffect(s, g, f, hard);
    case Count(id, g, amount) => TrafficEffect(s, id, g, amount);
  }

  lemma ForeignIsQuiet(s: Sys, step: Step)
    requires Foreign(step) && !step.Work?
    ensures Quiet(s, Apply(s, step)) && LeavesRest(s, Apply(s, step).(groups := s.groups))
    ensures Apply(s, step).changing == s.changing && Apply(s, step).clock == s.clock
  {
    if step.OutputFails? || step.GroupFails? || step.Count? { BranchStepEffect(s, step); }
  }

  lemma PlannedEffect(s: Sys, r: AdmitReading)
    requires s.prep.Some? && s.prep.value.exchange.stage.Planned?
    ensures var task := s.prep.value;
            LookAtPlanned(s, r) ==
            match Admission(s, task, r)
            case Failure(f) => ReleaseWorker(Reject(Judging(s, r), task.id, f).(prep := s.prep))
            case Success(g) => Decide(Judging(s, r), task, Success(g), r.bytes)
  {
    if Admission(s, s.prep.value, r).Failure? {
      RejectIsQuiet(Judging(s, r), s.prep.value.id, Admission(s, s.prep.value, r).error);
    }
  }

  // What the worker's turn leaves of the preparation.
  ghost predicate SameTask(task: Task, moved: Task) {
    && moved.id == task.id && moved.version == task.version && moved.graph == task.graph && moved.groups == task.groups
    && moved.generation == task.generation && moved.deadline == task.deadline && moved.expired == task.expired
    && moved.target == task.target && moved.lease == task.lease
    && moved.exchange.release == task.exchange.release && moved.exchange.construct == task.exchange.construct
    && (moved.plan == task.plan || task.exchange.worker.Preparing?)
    && (moved.plan == task.plan || moved.plan.Failure? || Conforms(task, moved.plan.value))
  }

  lemma WorkerEffect(s: Sys, r: WorkerReading)
    ensures var t := WorkerTurn(s, r);
            t == s.(prep := t.prep) && (s.prep.Some? <==> t.prep.Some?)
            && (s.prep.Some? ==> SameTask(s.prep.value, t.prep.value))
  {
  }

  lemma ExpireIsQuiet(s: Sys, elapsed: nat)
    ensures var t := Expire(s, elapsed);
            Quiet(s, t) && t.outputs == s.outputs && t.groups == s.groups && t.unpolled == s.unpolled
            && t.nextGroup == s.nextGroup && t.changing == s.changing && s.clock <= t.clock
            && (t.prep == s.prep || (s.prep.Some? && t.prep == Some(s.prep.value.(expired := true))))
  {
  }

  lemma NotifyIsQuiet(s: Sys)
    ensures var t := Notify(s);
            Quiet(s, t) && t.outputs == s.outputs && t.groups == s.groups && t.prep == s.prep
            && t.nextGroup == s.nextGroup
            && t.unpolled == s.unpolled && t.clock == s.clock && t.finishing == s.finishing
  {
  }

  lemma BeginIsQuiet(s: Sys, id: nat, r: BeginReading)
    requires s.prep.None?
    ensures var t := BeginPreparation(s, id, r);
            && Quiet(s, t) && t.outputs == s.outputs && t.nextGroup == s.nextGroup && t.unpolled == s.unpolled
            && t.changing == s.changing && t.finishing == s.finishing
            && (t.prep.Some? ==> t == Begun(s, id, r))
  {
    if r.missing.Some? {
      RejectIsQuiet(s, id, r.missing.value);
    } else if r.noWorker.Some? {
      RejectIsQuiet(Begun(s, id, r).(prep := None), id, r.noWorker.value);
    }
  }

  // A drain that is not accepted only touches the branch; an accepted one is published.
  lemma DrainShape(s: Sys, id: nat, generation: Option<nat>, closing: Option<Fault>)
    requires id in s.outputs
    ensures var t := DrainOutput(s, id, generation, closing);
            && id in t.outputs && SameOutput(s.outputs[id], t.outputs[id])
            && t == s.(outputs := t.outputs, ctl := t.ctl, told := t.told)
            && t.outputs == s.outputs[id := t.outputs[id]]
            && ((t.outputs[id].state == s.outputs[id].state && t.ctl == s.ctl)
                || (t.outputs[id].state.Draining? && !t.outputs[id].branch.state.Active?
                     && s.outputs[id].branch.state.Active?
                    && t == Publish(s.(outputs := s.outputs[id := t.outputs[id]]), SnapshotOf(id, t.outputs[id]))))
  {
  }

  lemma DrainIsQuiet(s: Sys, id: nat, generation: Option<nat>, closing: Option<Fault>)
    requires id in s.outputs
    ensures var t := DrainOutput(s, id, generation, closing);
            Quiet(s, t) && t.prep == s.prep && t.changing == s.changing && t.unpolled == s.unpolled
            && t.groups == s.groups
  {
    hide DrainOutput;
    DrainShape(s, id, generation, closing);
  }

  lemma FailMembersIsQuiet(s: Sys, g: nat)
    requires g in s.groups && s.groups[g].branch.fault.Some?
    ensures var t := FailMembers(s, g); Quiet(s, t) && t == s.(outputs := t.outputs)
  {
  }

  lemma GroupPollIsQuiet(group: Group, r: GroupReading)
    requires group.outputCount == 0
    ensures SameGroup(group, Polled(group, r).0) && Polled(group, r).0.draining
  {
  }

  lemma PollUnusedEffect(s: Sys, g: nat, r: GroupReading)
    requires g in s.groups && s.groups[g].outputCount == 0
    ensures var t := PollUnused(s, g, r);
            && t.outputs == s.outputs && t.prep == s.prep && t.finishing == s.finishing && t.nextGroup == s.nextGroup
            && t.clock == s.clock && t.unpolled == s.unpolled && t.changing == s.changing
            && t.groups == if Polled(s.groups[g], r).1 then s.groups - {g} else s.groups[g := Polled(s.groups[g], r).0]
  {
  }

  // ---- Whole steps ----

  lemma TakeIsQuiet(s: Sys, r: TakeReading)
    ensures var t := Take(s, r); Quiet(s, t) && t.finishing == s.finishing && t.unpolled == s.unpolled
    ensures Take(s, r).prep == s.prep || (!s.finishing && s.prep.None? && Take(s, r).prep.value.exchange == X.FRESH)
  {
    if CanTake(s) {
      var change := C.TakeChange(s.ctl).1.value;
      var t := Taken(s);
      if change.addition {
        BeginIsQuiet(t, change.id, r.begin);
        NotifyIsQuiet(BeginPreparation(t, change.id, r.begin));
        QuietTwice(t, BeginPreparation(t, change.id, r.begin), Take(s, r));
      } else if change.id !in s.outputs {
        RejectIsQuiet(t, change.id, Fault(NO_BRANCH, Drain));
        NotifyIsQuiet(Reject(t, change.id, Fault(NO_BRANCH, Drain)));
        QuietTwice(t, Reject(t, change.id, Fault(NO_BRANCH, Drain)), Take(s, r));
      } else {
        DrainIsQuiet(t, change.id, r.generation, r.closing);
      }
    }
  }

  lemma FinishIsQuiet(s: Sys)
    ensures var t := BeginFinish(s);
            Quiet(s, t) && t.outputs == s.outputs && t.prep == s.prep && t.finishing && t.unpolled == s.unpolled
  {
    var t := s.(finishing := true, ctl := C.SetEnabled(s.ctl, false));
    var (ctl, change) := C.TakeChange(t.ctl);
    var u := if change.Some? then Reject(t.(ctl := ctl), change.value.id, Fault(CANCELLED, Publication)) else t;
    if change.Some? { RejectIsQuiet(t.(ctl := ctl), change.value.id, Fault(CANCELLED, Publication)); }
    NotifyIsQuiet(u);
    QuietTwice(t, u, Notify(u));
  }

  lemma FinishOutputIsQuiet(s: Sys, id: nat, cause: Option<Fault>, generation: Option<nat>, closing: Option<Fault>)
    ensures var t := FinishOutput(s, id, cause, generation, closing);
            Quiet(s, t) && t.groups == s.groups && t.prep == s.prep && t.finishing == s.finishing
  {
    if id in s.outputs { DrainIsQuiet(s, id, generation, closing); }
  }

  lemma PlannedIsQuiet(s: Sys, r: AdmitReading)
    ensures var t := LookAtPlanned(s, r);
            Quiet(s, t) && t.outputs == s.outputs && t.finishing == s.finishing && (t.prep.Some? <==> s.prep.Some?)
    ensures var t := LookAtPlanned(s, r); s.prep.Some? && s.prep.value.exchange.stage.Planned? ==>
              (t.prep.value.exchange.release
               || (Admission(s, s.prep.value, r).Success? && t.prep.value.target == Admission(s, s.prep.value, r).value
                   && t.prep.value.plan == s.prep.value.plan))
    ensures s.prep.None? || !s.prep.value.exchange.stage.Planned? ==> LookAtPlanned(s, r) == s
  {
    if s.prep.Some? && s.prep.value.exchange.stage.Planned? {
      PlannedEffect(s, r);
      if Admission(s, s.prep.value, r).Failure? {
        RejectIsQuiet(Judging(s, r), s.prep.value.id, Admission(s, s.prep.value, r).error);
      }
    }
  }

  // The steps that neither publish a candidate nor retire an output or a group.
  predicate Calm(step: Step) {
    !step.Constructed? && !step.PollOutputStep? && !step.PollGroupStep?
  }

  lemma CalmIsQuiet(s: Sys, step: Step)
    requires Calm(step)
    ensures Quiet(s, Apply(s, step))
    ensures s.finishing ==> Apply(s, step).finishing
    ensures Apply(s, step).prep.Some? ==>
              s.prep.Some? || (!s.finishing && Apply(s, step).prep.value.exchange == X.FRESH)
  {
    match step
    case TakeStep(r) => TakeIsQuiet(s, r);
    case FinishStep => FinishIsQuiet(s);
    case FinishOutputStep(id, cause, generation, closing) => FinishOutputIsQuiet(s, id, cause, generation, closing);
    case NotifyStep => NotifyIsQuiet(s);
    case Budget(elapsed) => ExpireIsQuiet(s, elapsed);
    case Planned(r) => PlannedIsQuiet(s, r);
    case Work(r) => WorkerEffect(s, r);
    case Collect =>
    case _ => ForeignIsQuiet(s, step);
  }

  // What settling a candidate does to outputs and groups.
  lemma SettleEffect(s: Sys, r: PublishReading)
    requires s.prep.Some?
    ensures var task := s.prep.value;
            var t := Settle(s, r);
            && t.prep == s.prep && t.finishing == s.finishing && t.shared == s.shared && t.nextGroup == s.nextGroup
            && t.clock == s.clock && t.changing == s.changing && t.retired == s.retired
            && (if task.broken.Some? || task.plan.Failure? || Refusal(s, task, r).Some? then
                  Quiet(s, t) && t.outputs == s.outputs
                else if r.ending.OutputNotInserted? then
                  t.outputs == s.outputs && t.graph == s.graph && t.version == s.version
                  && SameGroups(JoinGroup(s, task, r).groups, t.groups)
                else t == InsertOutput(JoinGroup(s, task, r), task, r))
  {
    var task := s.prep.value;
    if task.broken.Some? || task.plan.Failure? {
      RejectIsQuiet(s, task.id, if task.broken.Some? then task.broken.value else Fault(CANCELLED, Publication));
    } else if Refusal(s, task, r).Some? {
      RejectIsQuiet(s, task.id, Refusal(s, task, r).value);
    } else if r.ending.OutputNotInserted? {
      RejectIsQuiet(JoinGroup(s, task, r), task.id, r.ending.fault);
    }
  }

  // Settling leaves the outputs alone, or adds the candidate's; no group goes.
  lemma SettleOutputs(s: Sys, r: PublishReading)
    requires s.prep.Some?
    ensures var task := s.prep.value;
            var t := Settle(s, r);
            && (t.outputs == s.outputs
                || (task.plan.Success? && t.outputs == s.outputs[task.id := NewOutput(task, r)]))
            && (forall g :: g in s.groups ==> g in t.groups)
            && t.ctl.pending == s.ctl.pending && t.ctl.nextId == s.ctl.nextId && t.ctl.enabled == s.ctl.enabled
  {
    hide Reject, NewOutput, JoinedGroup, CandidateGraph;
    var task := s.prep.value;
    if task.broken.Some? || task.plan.Failure? {
      RejectIsQuiet(s, task.id, if task.broken.Some? then task.broken.value else Fault(CANCELLED, Publication));
    } else if Refusal(s, task, r).Some? {
      RejectIsQuiet(s, task.id, Refusal(s, task, r).value);
    } else if r.ending.OutputNotInserted? {
      RejectIsQuiet(JoinGroup(s, task, r), task.id, r.ending.fault);
    }
  }

  // Settling leaves the graph alone, or puts the candidate's in its place.
  lemma SettleGraph(s: Sys, r: PublishReading)
    requires s.prep.Some?
    ensures var task := s.prep.value;
            var t := Settle(s, r);
            || (t.graph == s.graph && t.version == s.version)
            || (task.plan.Success? && task.version == s.version
                && t.graph == CandidateGraph(task) && t.version == s.version + 1)
  {
    hide Reject, JoinedGroup, CandidateGraph;
    var task := s.prep.value;
    if task.broken.Some? || task.plan.Failure? {
      RejectIsQuiet(s, task.id, if task.broken.Some? then task.broken.value else Fault(CANCELLED, Publication));
    } else if Refusal(s, task, r).Some? {
      RejectIsQuiet(s, task.id, Refusal(s, task, r).value);
    } else if r.ending.OutputNotInserted? {
      RejectIsQuiet(JoinGroup(s, task, r), task.id, r.ending.fault);
    }
  }

  lemma NewOutputWaits(task: Task, r: PublishReading)
    requires task.plan.Success?
    ensures var o := NewOutput(task, r);
            o.state.Waiting? && o.error.None? && o.deadline == Some(task.deadline) && !o.branch.state.Prepared?
  {
  }

  lemma ConcludeEffect(s: Sys, terminal: Snapshot, g: nat)
    ensures var t := Conclude(s, terminal, g);
            && t.outputs == s.outputs && t.groups == s.groups && t.shared == s.shared && t.graph == s.graph
            && t.version == s.version && t.prep == s.prep && t.unpolled == s.unpolled
            && (t.changing == s.changing || s.changing == Some(terminal.id))
  {
  }

  // What retiring an output does to the groups.
  lemma RetireEffect(s: Sys, id: nat)
    requires id in s.outputs
    ensures var t := Retire(s, id);
            && t.outputs == s.outputs - {id} && t.prep == s.prep && t.finishing == s.finishing
            && t.nextGroup == s.nextGroup
            && t.unpolled == s.unpolled && t.clock == s.clock && t.retired == s.retired + s.outputs[id].branch.metrics
            && (forall g :: g in t.groups <==> g in s.groups)
            && (forall g :: g in t.groups ==>
                  t.groups[g].draining == s.groups[g].draining && t.groups[g].branch == s.groups[g].branch)
  {
  }

  lemma PollGroupEffect(s: Sys, g: nat, r: GroupReading)
    ensures var t := PollGroup(s, g, r);
            && SameOutputs(s.outputs, t.outputs) && t.prep == s.prep && t.finishing == s.finishing
            && t.nextGroup == s.nextGroup && t.clock == s.clock && t.unpolled == s.unpolled - {g}
            && t.changing == s.changing
            && t.groups ==
               if g !in s.groups || s.groups[g].outputCount != 0 then s.groups
               else if Polled(s.groups[g], r).1 then s.groups - {g} else s.groups[g := Polled(s.groups[g], r).0]
  {
    var u := s.(unpolled := s.unpolled - {g});
    if g in s.groups {
      var t := if s.groups[g].branch.fault.Some? then FailMembers(u, g) else u;
      if s.groups[g].branch.fault.Some? { FailMembersIsQuiet(u, g); }
      if s.groups[g].outputCount == 0 { PollUnusedEffect(t, g, r); }
    }
  }
}
