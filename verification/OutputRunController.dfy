/**
 The output run controller object. Its methods update the fields in place, in the order of the
 program; each refines the function of ControllerModel of the same name, so that poll() is a run.
 */
module OutputRunControllerObject {
  import opened Wrappers
  import opened OutputTypes
  import opened RunControlObject
  import M = ControllerModel
  import I = ControllerInvariant
  import R = ControllerRuns
  import P = ControllerPoll
  import F = ControllerFinish
  import G = ControllerProgress
  import T = ControllerMetrics
  import N = ControllerReports
  import A = ControllerAgreement
  import O = ControllerOutcome
  import opened Sums
  import B = RuntimeBranch
  import X = PreparationExchange
  import C = ControlModel

  method SumOf(counters: map<nat, nat>) returns (total: nat)
    ensures total == Sum(counters)
  {
    total := 0;
    var rest := counters;
    while rest != map[]
      invariant total + Sum(rest) == Sum(counters)
      decreases |rest|
    {
      var k :| k in rest;
      SumSplits(rest, k);
      total, rest := total + rest[k], rest - {k};
    }
  }

  class OutputRunController {
    const control: RunControl
    const shared: set<nat>
    var outputs: map<nat, M.Output>
    var groups: map<nat, M.Group>
    var nextGroupId: nat
    var graph: set<nat>
    var graphVersion: nat
    var preparation: Option<M.Task>
    var changingOutput: Option<nat>
    var pendingTerminal: Option<Snapshot>
    var pendingTerminalGroup: Option<nat>
    var changingGroup: Option<nat>
    var retiredMetrics: nat
    var clock: nat
    var finishing: bool
    var finishFailure: Option<Error>
    var finished: bool
    const capacity: nat
    var reserved: int
    ghost var unpolled: set<nat>
    ghost var told: C.History

    ghost function Model(): M.Sys
      reads this, control
    {
      M.Sys(control.Model(), outputs, groups, nextGroupId, shared, graph, graphVersion, preparation, changingOutput,
            pendingTerminal, pendingTerminalGroup, changingGroup, retiredMetrics, unpolled, clock, finishing,
            finishFailure, told, capacity, reserved)
    }

    ghost predicate Valid()
      reads this, control
    {
      control.Valid() && I.Valid(Model()) && A.AllConsistent(Model())
    }

    // The controller of a session whose initial output has been registered and started.
    constructor (control: RunControl, shared: set<nat>, encoding: set<nat>, protocol: set<nat>, generation: nat,
                 startedAt: nat, startupWait: nat, traffic: nat, capacity: nat, lease: nat)
      requires control.Valid() && control.Model() == C.EMPTY
      requires shared !! encoding && shared !! protocol && encoding !! protocol
      modifies control
      ensures this.control == control && Valid()
      ensures Model() == M.Initial(shared, encoding, protocol, generation, startedAt, startupWait, traffic, capacity,
                                   lease)
    {
      hide I.Valid;
      this.control := control;
      this.shared := shared;
      var o := M.Output(1, M.FreshBranch(traffic), protocol, generation, startedAt, startupWait, None,
                        Waiting, Runtime, None, true, lease);
      outputs := map[1 := o];
      groups := map[1 := M.Group(generation, M.FreshBranch(traffic), encoding, 1, false, true)];
      nextGroupId, graph, graphVersion := 2, shared + encoding + protocol, 0;
      preparation, changingOutput, pendingTerminal, pendingTerminalGroup, changingGroup := None, None, None, None, None;
      retiredMetrics, clock, unpolled := 0, startedAt, {};
      this.capacity, reserved, told := capacity, lease, C.Then(C.Start, M.SnapshotOf(1, o));
      finishing, finishFailure, finished := false, None, false;
      new;
      var _ := control.RegisterInitialOutput();
      control.PublishOutputSnapshot(M.SnapshotOf(1, o));
      control.SetOutputChangesEnabled(true);
      R.InitialIsValid(shared, encoding, protocol, generation, startedAt, startupWait, traffic, capacity, lease);
      A.InitialAgrees(shared, encoding, protocol, generation, startedAt, startupWait, traffic, capacity, lease);
    }

    // ---- Building blocks ----

    method Publish(snapshot: Snapshot)
      requires control.Valid()
      modifies this`told, control
      ensures control.Valid() && Model() == M.Publish(old(Model()), snapshot)
    {
      control.PublishOutputSnapshot(snapshot);
      told := C.Then(told, snapshot);
    }

    method AbandonGroup(f: Fault)
      modifies this`groups, this`pendingTerminalGroup, this`changingGroup
      ensures Model() == M.AbandonGroup(old(Model()), f)
    {
      if changingGroup.Some? {
        var g := changingGroup.value;
        if g in groups && groups[g].outputCount == 0 {
          groups := groups[g := groups[g].(draining := true, branch := B.Fail(groups[g].branch, f))];
          pendingTerminalGroup := Some(g);
        }
        changingGroup := None;
      }
    }

    method Reject(id: nat, f: Fault)
      requires control.Valid()
      modifies this, control
      ensures control.Valid() && Model() == M.Reject(old(Model()), id, f)
    {
      hide M.Publish, M.AbandonGroup;
      Publish(Snapshot(id, Failed, f.stage, Some(f.error)));
      pendingTerminal := Some(Snapshot(id, Retired, f.stage, Some(f.error)));
      AbandonGroup(f);
    }

    method PublishPendingTerminal()
      requires control.Valid()
      modifies this, control
      ensures control.Valid() && Model() == M.Notify(old(Model()))
    {
      hide M.Publish, C.CompleteChange;
      if pendingTerminal.None? { return; }
      if preparation.Some? { return; }
      if pendingTerminalGroup.Some? && pendingTerminalGroup.value in groups { return; }
      pendingTerminalGroup := None;
      var terminal := pendingTerminal.value;
      pendingTerminal := None;
      control.CompleteOutputChange();
      if changingOutput == Some(terminal.id) { changingOutput := None; }
      Publish(terminal);
    }

    // ---- The preparation ----

    method AvailableGroups(witnessed: set<nat>) returns (available: set<nat>)
      ensures available == M.Available(Model(), witnessed)
    {
      available := {};
      var todo := groups.Keys;
      while todo != {}
        invariant todo <= groups.Keys
        invariant forall g :: g in available <==> g in M.Available(Model(), witnessed) && g !in todo
      {
        var g :| g in todo;
        var group := groups[g];
        if !group.draining && group.graphPublished && g in witnessed
           && group.branch.fault.None? && group.branch.state.Active?
        {
          available := available + {g};
        }
        todo := todo - {g};
      }
    }

    method BeginPreparation(id: nat, r: M.BeginReading)
      requires control.Valid()
      modifies this, control
      ensures control.Valid() && Model() == M.BeginPreparation(old(Model()), id, r)
    {
      hide M.Reject, M.Available, M.Publish;
      if r.missing.Some? {
        Reject(id, r.missing.value);
        return;
      }
      var available := AvailableGroups(r.witnessed);
      clock := clock + r.elapsed;
      preparation := Some(M.Task(id, graphVersion, graph, available, r.generation, clock + r.timeout, false,
                                 X.FRESH, 0, Failure(M.CANCELLED), 0, None, 0));
      Publish(Snapshot(id, Preparing, Preparation, None));
      if r.noWorker.Some? {
        preparation := None;
        Reject(id, r.noWorker.value);
      }
    }

    method ExpireBudget(elapsed: nat)
      requires control.Valid()
      modifies this, control
      ensures control.Valid() && Model() == M.Apply(old(Model()), M.Budget(elapsed))
    {
      if preparation.Some? && !preparation.value.expired && clock + elapsed >= preparation.value.deadline {
        clock := clock + elapsed;
        preparation := Some(preparation.value.(expired := true));
        Publish(Snapshot(preparation.value.id, Failed, Preparation, Some(M.EXPIRED)));
      }
    }

    // The checks of an admission: the group to use, or why the candidate is refused.
    method Judge(r: M.AdmitReading) returns (verdict: Result<nat, Fault>)
      requires preparation.Some?
      modifies this`clock, this`nextGroupId
      ensures verdict == M.Admission(old(Model()), preparation.value, r)
      ensures Model() == M.Judging(old(Model()), r)
    {
      var task := preparation.value;
      clock := clock + r.elapsed;
      if task.plan.Failure? { return Failure(Fault(task.plan.error, Preparation)); }
      if task.expired || clock >= task.deadline { return Failure(Fault(M.EXPIRED, Preparation)); }
      if r.early.Some? { return Failure(r.early.value); }
      if finishing || r.generation != Some(task.generation) || graphVersion != task.version {
        return Failure(Fault(M.CANCELLED, Publication));
      }
      if r.unfit.Some? { return Failure(r.unfit.value); }
      var g;
      match task.plan.value.encoding {
        case NewGroup(_) =>
          if nextGroupId == MAX_ID { return Failure(Fault(M.IDS_EXHAUSTED, Preparation)); }
          g := nextGroupId;
          nextGroupId := nextGroupId + 1;
        case ExistingGroup(existing) =>
          g := existing;
          if g !in groups || groups[g].draining || groups[g].branch.fault.Some?
             || groups[g].generation != task.generation || !groups[g].branch.state.Active?
          {
            return Failure(Fault(M.CANCELLED, Publication));
          }
      }
      if r.bytes == 0 || reserved > capacity || r.bytes > capacity - reserved {
        return Failure(Fault(M.OVER_CAPACITY, Planning));
      }
      if r.late.Some? { return Failure(r.late.value); }
      return Success(g);
    }

    method Decide(task: M.Task, verdict: Result<nat, Fault>, bytes: nat)
      requires control.Valid()
      modifies this, control
      ensures control.Valid() && Model() == M.Decide(old(Model()), task, verdict, bytes)
    {
      match verdict
      case Failure(f) => Reject(task.id, f);
      case Success(g) =>
        reserved := reserved + bytes;
        preparation := Some(task.(target := g, lease := bytes, exchange := X.Construct(task.exchange)));
    }

    method Admit(r: M.AdmitReading)
      requires control.Valid() && preparation.Some?
      modifies this, control
      ensures control.Valid() && Model() == M.AdmitPrepared(old(Model()), r)
    {
      var task := preparation.value;
      var verdict := Judge(r);
      Decide(task, verdict, r.bytes);
    }

    method LookAtPlanned(r: M.AdmitReading)
      requires control.Valid()
      modifies this, control
      ensures control.Valid() && Model() == M.Apply(old(Model()), M.Planned(r))
    {
      if preparation.Some? && preparation.value.exchange.stage.Planned? {
        Admit(r);
        if preparation.Some? && preparation.value.exchange.stage.Planned? {
          preparation := Some(M.LetGo(preparation.value, preparation.value.id in outputs));
        }
      }
    }

    // The candidate's output and its group, as far as the subscriptions and the graph got.
    method Subscribe(task: M.Task, r: M.PublishReading, current: M.Group) returns (o: M.Output, group: M.Group)
      requires task.plan.Success?
      ensures o == M.NewOutput(task, r) && group == M.JoinedGroup(current, task, r)
    {
      var ending := M.EndingFor(task, r.ending);
      o := M.Output(M.Target(task), M.FreshBranch(r.traffic), task.plan.value.nodes, task.generation, r.startedAt,
                    r.startupWait, Some(task.deadline), Waiting, Publication, None, false, task.lease);
      group := current.(outputCount := current.outputCount + 1);
      if ending.OutputNotSubscribed? {
        o := o.(branch := B.Fail(o.branch, ending.fault));
        return;
      }
      if ending.GroupNotSubscribed? {
        group := group.(branch := B.Fail(group.branch, ending.fault));
        return;
      }
      o, group := o.(published := true), group.(graphPublished := true);
      if ending.RaisedAfterGraph? {
        o := o.(stage := ending.fault.stage, branch := B.Fail(o.branch, ending.fault));
        return;
      }
      o := o.(stage := Runtime);
    }

    method Enter(task: M.Task, r: M.PublishReading) returns (o: M.Output)
      requires task.plan.Success? && M.Target(task) in groups
      modifies this`outputs, this`groups, this`changingGroup, this`graph, this`graphVersion
      ensures Model() == M.Inserted(old(Model()), task, r) && o == M.NewOutput(task, r)
    {
      hide M.NewOutput, M.JoinedGroup, M.CandidateGraph, M.Target;
      var g := M.Target(task);
      var group;
      o, group := Subscribe(task, r, groups[g]);
      outputs, groups, changingGroup := outputs[task.id := o], groups[g := group], None;
      if o.published { graph, graphVersion := M.CandidateGraph(task), graphVersion + 1; }
    }

    method Insert(task: M.Task, r: M.PublishReading)
      requires control.Valid() && task.plan.Success? && M.Target(task) in groups
      modifies this, control
      ensures control.Valid() && Model() == M.InsertOutput(old(Model()), task, r)
    {
      hide M.Inserted, M.NewOutput, M.Publish, M.SnapshotOf, M.EndingFor;
      var o := Enter(task, r);
      if M.EndingFor(task, r.ending).Completed? { Publish(M.SnapshotOf(task.id, o)); }
    }

    method PublishPrepared(r: M.PublishReading)
      requires control.Valid() && preparation.Some? && preparation.value.plan.Success?
      modifies this, control
      ensures control.Valid() && Model() == M.PublishPrepared(old(Model()), r)
    {
      hide M.Reject, M.InsertOutput;
      var task := preparation.value;
      if r.refused.Some? {
        Reject(task.id, r.refused.value);
        return;
      }
      if task.expired || finishing || r.generation != Some(task.generation) || graphVersion != task.version {
        Reject(task.id, Fault(M.CANCELLED, Publication));
        return;
      }
      if r.candidate.Some? {
        Reject(task.id, r.candidate.value);
        return;
      }
      match task.plan.value.encoding {
        case NewGroup(nodes) =>
          groups := groups[task.target := M.Group(task.generation, M.FreshBranch(r.traffic), nodes, 0, false, false)];
          changingGroup := Some(task.target);
        case ExistingGroup(g) =>
          if g !in groups || groups[g].draining || groups[g].branch.fault.Some? || !groups[g].branch.state.Active? {
            Reject(task.id, Fault(M.CANCELLED, Publication));
            return;
          }
      }
      if r.ending.OutputNotInserted? {
        Reject(task.id, r.ending.fault);
        return;
      }
      Insert(task, r);
    }

    method Settle(r: M.PublishReading)
      requires control.Valid() && preparation.Some?
      modifies this, control
      ensures control.Valid() && Model() == M.Settle(old(Model()), r)
    {
      hide M.Reject, M.PublishPrepared;
      var task := preparation.value;
      if task.broken.Some? || task.plan.Failure? {
        Reject(task.id, if task.broken.Some? then task.broken.value else Fault(M.CANCELLED, Publication));
      } else {
        PublishPrepared(r);
      }
    }

    method LookAtConstructed(r: M.PublishReading)
      requires control.Valid()
      modifies this, control
      ensures control.Valid() && Model() == M.Apply(old(Model()), M.Constructed(r))
    {
      hide M.Settle;
      if preparation.Some? && preparation.value.exchange.stage.Constructed? {
        Settle(r);
        if preparation.Some? {
          preparation := Some(M.LetGo(preparation.value, preparation.value.id in outputs));
          unpolled := groups.Keys;
        }
      }
    }

    method CollectPreparation()
      modifies this
      ensures Model() == M.Apply(old(Model()), M.Collect)
    {
      if preparation.Some? && preparation.value.exchange.worker.Done? {
        reserved := reserved - preparation.value.lease;
        preparation := None;
      }
    }

    // ---- Groups ----

    method FailMembers(g: nat)
      requires g in groups && groups[g].branch.fault.Some?
      modifies this`outputs
      ensures Model() == M.FailMembers(old(Model()), g)
    {
      var f := groups[g].branch.fault.value;
      var todo := outputs.Keys;
      ghost var before := outputs;
      ghost var after := M.FailMembers(Model(), g).outputs;
      while todo != {}
        invariant todo <= before.Keys && outputs.Keys == before.Keys
        invariant forall id :: id in before ==> outputs[id] == if id in todo then before[id] else after[id]
      {
        var id :| id in todo;
        if outputs[id].groupId == g && outputs[id].branch.fault.None? {
          outputs := outputs[id := outputs[id].(branch := B.Fail(outputs[id].branch, f))];
        }
        todo := todo - {id};
      }
      assert outputs == after;
    }

    method StartGroupDrain(group: M.Group, closing: Option<Fault>) returns (started: M.Group)
      ensures started == M.StartGroupDrain(group, closing)
    {
      started := group;
      if !started.draining {
        started := started.(draining := true);
        if started.branch.state.Active? {
          var (branch, accepted) := B.BeginDrain(started.branch, closing);
          if !accepted { branch := B.Fail(branch, Fault(M.CANCELLED, OutputTypes.Drain)); }
          started := started.(branch := branch);
        } else if started.branch.state.Prepared? {
          started := started.(branch := B.Fail(started.branch, Fault(M.CANCELLED, Preparation)));
        }
      }
    }

    method AmendTerminal(g: nat, fault: Option<Fault>)
      requires control.Valid()
      modifies this`pendingTerminal, this`told, control
      ensures control.Valid() && Model() == M.AmendTerminal(old(Model()), g, fault)
    {
      if pendingTerminalGroup == Some(g) && pendingTerminal.Some? && pendingTerminal.value.error.None? && fault.Some? {
        var amended := pendingTerminal.value.(error := Some(fault.value.error), stage := fault.value.stage);
        pendingTerminal := Some(amended);
        Publish(amended.(state := Failed));
      }
    }

    method KeepFailure(fault: Option<Fault>)
      modifies this`finishFailure
      ensures Model() == M.KeepFailure(old(Model()), fault)
    {
      if fault.Some? && finishing && finishFailure.None? { finishFailure := Some(fault.value.error); }
    }

    method RemoveGroup(g: nat, group: M.Group)
      modifies this`retiredMetrics, this`graph, this`graphVersion, this`groups
      ensures Model() == M.RemoveGroup(old(Model()), g, group)
    {
      retiredMetrics := retiredMetrics + group.branch.metrics;
      if group.graphPublished { graph, graphVersion := graph - group.nodes, graphVersion + 1; }
      groups := groups - {g};
    }

    method EraseGroup(g: nat, group: M.Group)
      requires control.Valid()
      modifies this, control
      ensures control.Valid() && Model() == M.EraseGroup(old(Model()), g, group)
    {
      hide M.KeepFailure, M.AmendTerminal, M.RemoveGroup;
      KeepFailure(group.branch.fault);
      AmendTerminal(g, group.branch.fault);
      RemoveGroup(g, group);
    }

    method PollUnused(g: nat, r: M.GroupReading)
      requires control.Valid() && g in groups
      modifies this, control
      ensures control.Valid() && Model() == M.PollUnused(old(Model()), g, r)
    {
      var group := StartGroupDrain(groups[g], r.closing);
      var (branch, retired) := B.Poll(group.branch, r.poll);
      group := group.(branch := M.Observe(branch, r.after));
      if retired { EraseGroup(g, group); } else { groups := groups[g := group]; }
    }

    method PollGroup(g: nat, r: M.GroupReading)
      requires control.Valid()
      modifies this, control
      ensures control.Valid() && Model() == M.Apply(old(Model()), M.PollGroupStep(g, r))
    {
      unpolled := unpolled - {g};
      if g in groups {
        if groups[g].branch.fault.Some? { FailMembers(g); }
        if groups[g].outputCount == 0 { PollUnused(g, r); }
      }
    }

    // ---- Outputs ----

    method Drain(id: nat, generation: Option<nat>, closing: Option<Fault>)
      requires control.Valid() && id in outputs
      modifies this, control
      ensures control.Valid() && Model() == M.DrainOutput(old(Model()), id, generation, closing)
    {
      var o := outputs[id];
      if generation.Some? { o := o.(generation := generation.value); }
      o := o.(stage := OutputTypes.Drain);
      var (branch, accepted) := B.BeginDrain(o.branch, closing);
      if !accepted {
        outputs := outputs[id := o.(branch := B.Fail(branch, Fault(M.CANCELLED, OutputTypes.Drain)))];
      } else {
        o := o.(branch := branch, state := Draining);
        outputs := outputs[id := o];
        Publish(M.SnapshotOf(id, o));
      }
    }

    method Promote(id: nat, r: M.OutputReading)
      requires control.Valid() && id in outputs
      modifies this, control
      ensures control.Valid() && Model() == M.Promote(old(Model()), id, r)
    {
      hide M.Publish, M.SnapshotOf, C.CompleteChange;
      var o := outputs[id];
      var now := clock + r.first;
      clock := now + r.second;
      if o.state.Waiting? && preparation.None? && o.branch.fault.None? && M.Before(now, o.deadline)
         && clock - o.startedAt < o.startupWait && r.active && r.evidence == Some(o.generation)
      {
        o := o.(state := Running, stage := Runtime);
        outputs := outputs[id := o];
        if changingOutput == Some(id) {
          control.CompleteOutputChange();
          changingOutput := None;
        }
        Publish(M.SnapshotOf(id, o));
      }
    }

    method FailOverdue(id: nat, r: M.OutputReading)
      requires id in outputs
      modifies this`clock, this`outputs
      ensures Model() == M.FailOverdue(old(Model()), id, r)
    {
      var o := outputs[id];
      var now := clock + r.third;
      clock := now + r.fourth;
      if o.state.Waiting? && (!M.Before(now, o.deadline) || clock - o.startedAt >= o.startupWait) {
        outputs := outputs[id := o.(branch := B.Fail(o.branch, Fault(M.NO_MEDIA, Runtime)))];
      }
    }

    method NoteFailure(id: nat)
      requires control.Valid() && id in outputs
      modifies this, control
      ensures control.Valid() && Model() == M.NoteFailure(old(Model()), id)
    {
      var o := outputs[id];
      if o.branch.fault.Some? && !o.state.Failed? {
        var f := o.branch.fault.value;
        o := o.(state := Failed, stage := f.stage, error := Some(f.error));
        outputs := outputs[id := o];
        if finishing && finishFailure.None? { finishFailure := Some(f.error); }
        Publish(M.SnapshotOf(id, o));
      }
    }

    method Leave(id: nat)
      requires id in outputs
      modifies this`retiredMetrics, this`graph, this`graphVersion, this`outputs, this`reserved, this`groups
      ensures Model() == M.Leave(old(Model()), id)
    {
      hide M.OneLess;
      var o := outputs[id];
      retiredMetrics, reserved := retiredMetrics + o.branch.metrics, reserved - o.lease;
      graph, graphVersion := graph - o.nodes, graphVersion + 1;
      outputs, groups := outputs - {id}, M.OneLess(groups, o.groupId);
    }

    method Conclude(terminal: Snapshot, g: nat)
      requires control.Valid()
      modifies this, control
      ensures control.Valid() && Model() == M.Conclude(old(Model()), terminal, g)
    {
      var last := g in groups && groups[g].outputCount == 0;
      if changingOutput == Some(terminal.id) && (last || (preparation.Some? && preparation.value.id == terminal.id)) {
        pendingTerminal := Some(terminal);
        if last { pendingTerminalGroup := Some(g); }
      } else {
        if changingOutput == Some(terminal.id) {
          control.CompleteOutputChange();
          changingOutput := None;
        }
        Publish(terminal);
      }
    }

    method Retire(id: nat)
      requires control.Valid() && id in outputs
      modifies this, control
      ensures control.Valid() && Model() == M.Retire(old(Model()), id)
    {
      var terminal, g := M.SnapshotOf(id, outputs[id].(state := Retired)), outputs[id].groupId;
      Leave(id);
      Conclude(terminal, g);
    }

    method Examine(id: nat, r: M.OutputReading) returns (retired: bool)
      requires control.Valid() && id in outputs
      modifies this, control
      ensures control.Valid() && Model() == M.Examine(old(Model()), id, r).0
              && retired == M.Examine(old(Model()), id, r).1
    {
      Promote(id, r);
      FailOverdue(id, r);
      var (branch, gone) := B.Poll(M.Observe(outputs[id].branch, r.during), r.poll);
      outputs := outputs[id := outputs[id].(branch := M.Observe(branch, r.after))];
      NoteFailure(id);
      retired := gone;
    }

    method PollOutput(id: nat, r: M.OutputReading)
      requires control.Valid() && unpolled == {}
      modifies this, control
      ensures control.Valid() && Model() == M.Apply(old(Model()), M.PollOutputStep(id, r))
    {
      if id in outputs {
        var retired := Examine(id, r);
        if retired && id in outputs { Retire(id); }
      }
    }

    // ---- Commands ----

    method TakeCommand(r: M.TakeReading)
      requires control.Valid()
      modifies this, control
      ensures control.Valid() && Model() == M.Apply(old(Model()), M.TakeStep(r))
    {
      hide M.Reject, M.BeginPreparation, M.Notify, M.DrainOutput;
      if finishing || preparation.Some? || pendingTerminal.Some? { return; }
      var taken := control.TakeOutputChange();
      if taken.None? { return; }
      var id := taken.value.id;
      changingOutput := Some(id);
      if taken.value.addition {
        BeginPreparation(id, r.begin);
        PublishPendingTerminal();
      } else if id !in outputs {
        Reject(id, Fault(M.NO_BRANCH, OutputTypes.Drain));
        PublishPendingTerminal();
      } else {
        Drain(id, r.generation, r.closing);
      }
    }

    // ---- The other threads ----

    // One step of another thread, seen from here.
    method Meanwhile(step: M.Step)
      requires control.Valid() && M.Foreign(step)
      modifies this, control
      ensures control.Valid() && Model() == M.Apply(old(Model()), step)
    {
      match step
      case CallAdd => var _ := control.AddOutput();
      case CallRemove(id) => var _ := control.RemoveOutput(id);
      case CallStop => control.RequestStop();
      case Work(r) =>
        if preparation.Some? { preparation := Some(M.Turn(preparation.value, r)); }
      case OutputFails(id, f) =>
        if id in outputs { outputs := outputs[id := M.FaultedOutput(outputs[id], f)]; }
      case GroupFails(g, f, hard) =>
        if g in groups { groups := groups[g := M.FaultedGroup(groups[g], f, hard)]; }
      case Count(id, g, amount) =>
        if id in outputs {
          outputs := outputs[id := outputs[id].(branch := M.Busier(outputs[id].branch, amount))];
        }
        if g in groups {
          groups := groups[g := groups[g].(branch := M.Busier(groups[g].branch, amount))];
        }
    }

    method Interleave(steps: seq<M.Step>)
      requires control.Valid() && P.ForeignOnly(steps)
      modifies this, control
      ensures control.Valid() && Model() == M.Run(old(Model()), steps)
    {
      ghost var before := Model();
      for i := 0 to |steps|
        invariant control.Valid() && Model() == M.Run(before, steps[..i])
      {
        Meanwhile(steps[i]);
        assert steps[..i + 1] == steps[..i] + [] + [steps[i]];
        P.RunThen(before, steps[..i], [], steps[i]);
      }
      assert steps[..|steps|] == steps;
    }

    // ---- poll() ----

    method LookAtPreparation(env: P.Surroundings)
      requires control.Valid() && P.Proper(env)
      modifies this, control
      ensures control.Valid() && Model() == M.Run(old(Model()), P.PreparationSteps(env))
    {
      hide M.Apply, M.Run;
      ghost var before := Model();
      Interleave(env.others(0, 0));
      ExpireBudget(env.budget);
      ghost var a := Model();
      Interleave(env.others(1, 0));
      LookAtPlanned(env.planned);
      ghost var b := Model();
      Interleave(env.others(2, 0));
      LookAtConstructed(env.constructed);
      ghost var c := Model();
      Interleave(env.others(3, 0));
      CollectPreparation();
      P.PreparationRun(before, env, a, b, c, Model());
    }

    method PollGroups(env: P.Surroundings, again: bool)
      requires control.Valid() && P.Proper(env)
      modifies this, control
      ensures control.Valid() && Model() == M.Run(old(Model()), P.GroupSteps(env, again, old(nextGroupId)))
    {
      hide M.Apply, M.Run;
      ghost var before := Model();
      P.RunNothing(before);
      for g := 0 to nextGroupId
        invariant control.Valid() && Model() == M.Run(before, P.GroupSteps(env, again, g))
      {
        Interleave(P.GroupOthers(env, again, g));
        PollGroup(g, P.GroupReadingOf(env, again, g));
        P.GroupRound(before, env, again, g);
      }
    }

    method PollOutputs(env: P.Surroundings)
      requires control.Valid() && P.Proper(env) && unpolled == {}
      modifies this, control
      ensures control.Valid() && Model() == M.Run(old(Model()), P.OutputSteps(env, old(control.nextOutputId)))
    {
      hide M.Apply, M.Run;
      ghost var before := Model();
      P.RunNothing(before);
      for id := 0 to control.nextOutputId
        invariant control.Valid() && Model() == M.Run(before, P.OutputSteps(env, id)) && unpolled == {}
      {
        ghost var here := Model();
        Interleave(env.others(6, id));
        P.ForeignKeepsUnpolled(here, env.others(6, id));
        P.StaysPolled(Model(), M.PollOutputStep(id, env.outputs(id)));
        PollOutput(id, env.outputs(id));
        P.RunThen(before, P.OutputSteps(env, id), env.others(6, id), M.PollOutputStep(id, env.outputs(id)));
      }
    }

    method Open(env: P.Surroundings)
      requires control.Valid() && P.Proper(env)
      modifies this, control
      ensures control.Valid() && Model() == M.Run(old(Model()), P.Opening(old(Model()), env))
    {
      hide M.Apply, M.Run;
      ghost var before := Model();
      LookAtPreparation(env);
      ghost var a := Model();
      PollGroups(env, false);
      ghost var b := Model();
      Interleave(env.others(5, 0));
      P.NotifyIsAStep(Model());
      PublishPendingTerminal();
      P.OpeningRun(before, env, a, b, Model());
    }

    method Close(env: P.Surroundings)
      requires control.Valid() && P.Proper(env)
      modifies this, control
      ensures control.Valid() && Model() == M.Run(old(Model()), P.Conclusion(old(Model()), env))
    {
      hide M.Apply, M.Run;
      ghost var before := Model();
      PollGroups(env, true);
      ghost var a := Model();
      Interleave(env.others(8, 0));
      P.NotifyIsAStep(Model());
      PublishPendingTerminal();
      ghost var b := Model();
      Interleave(env.others(9, 0));
      TakeCommand(env.take);
      P.ConclusionRun(before, env, a, b, Model());
    }

    method Poll(env: P.Surroundings)
      requires Valid() && P.Proper(env)
      modifies this, control
      ensures Valid() && Model() == M.Run(old(Model()), P.PollTrace(old(Model()), env))
    {
      hide M.Apply, M.Run, A.AllConsistent;
      ghost var before := Model();
      Open(env);
      ghost var a := Model();
      P.OutputsComeAfterGroups(before, env);
      PollOutputs(env);
      ghost var b := Model();
      Close(env);
      P.PollRun(before, env, a, b, Model());
      R.RunKeepsValid(before, P.PollTrace(before, env));
      A.RunKeepsConsistent(before, P.PollTrace(before, env));
    }

    // ---- aggregate() ----

    /** What a report shows: every branch, live or retired, counted once. */
    method Aggregate() returns (total: nat)
      ensures total == T.Total(Model())
    {
      total := retiredMetrics;
      var ofOutputs, ofGroups := T.OutputCounters(outputs), T.GroupCounters(groups);
      var sum := SumOf(ofOutputs);
      total := total + sum;
      sum := SumOf(ofGroups);
      total := total + sum;
    }

    // ---- finish() ----

    method BeginFinish()
      requires control.Valid()
      modifies this, control
      ensures control.Valid() && Model() == M.BeginFinish(old(Model()))
    {
      finishing := true;
      control.SetOutputChangesEnabled(false);
      var taken := control.TakeOutputChange();
      if taken.Some? { Reject(taken.value.id, Fault(M.CANCELLED, Publication)); }
      PublishPendingTerminal();
    }

    method StopOutput(id: nat, cause: Option<Fault>, generation: Option<nat>, closing: Option<Fault>)
      requires control.Valid() && finishing
      modifies this, control
      ensures control.Valid() && Model() == M.Apply(old(Model()), M.FinishOutputStep(id, cause, generation, closing))
    {
      hide M.Apply, M.DrainOutput, B.Fail;
      F.StopIsAStep(Model(), id, cause, generation, closing);
      if id in outputs {
        if cause.Some? {
          outputs := outputs[id := outputs[id].(branch := B.Fail(outputs[id].branch, cause.value))];
        } else if outputs[id].branch.state.Active? {
          Drain(id, generation, closing);
        }
      }
    }

    /** Closes the mailbox, rejects the command still in it and tells every output to stop: with a failure of
        the session it fails them, for that reason unless they had failed before; otherwise running ones close. */
    method StopAll(env: F.Farewell)
      requires Valid() && forall id :: P.ForeignOnly(env.others(id))
      modifies this, control
      ensures control.Valid() && F.Stopped(Model()) && F.Settled(Model()) && A.AllConsistent(Model())
      ensures Model() == M.Run(old(Model()), F.StopSteps(env, M.BeginFinish(old(Model())).ctl.nextId))
      ensures forall id :: id in old(outputs) ==>
                && id in outputs
                && O.Told(old(outputs)[id], outputs[id], env.cause, env.closings(id), O.Spared(env, id))
    {
      hide M.Apply, M.Run, M.BeginFinish, I.Valid, A.AllConsistent, O.Told;
      ghost var before := Model();
      F.FinishKeepsValid(before);
      F.StopStarts(before, env);
      BeginFinish();
      var n := control.nextOutputId;
      F.TellingStarts(before, n);
      for id := 0 to n
        invariant control.Valid() && F.Telling(Model(), id, n)
        invariant Model() == M.Run(before, F.StopSteps(env, id))
      {
        ghost var here := Model();
        F.TellingGoesOn(here, env.others(id), F.StopStep(env, id), n);
        F.StopGoesOn(before, env, id);
        Interleave(env.others(id));
        R.RunKeepsFinishing(here, env.others(id));
        StopOutput(id, env.cause, env.generations(id), env.closings(id));
      }
      F.TellingEnds(Model(), n);
      A.RunKeepsConsistent(before, F.StopSteps(env, n));
      O.AllAreTold(before, env);
    }

    // One poll and the sleep after it.
    method PollRound(env: P.Surroundings, asleep: seq<M.Step>, ghost patience: nat)
      requires control.Valid() && F.Stopped(Model()) && A.AllConsistent(Model()) && Busy()
      requires P.Proper(env) && P.ForeignOnly(asleep) && G.Fair(env, asleep, patience)
      modifies this, control
      ensures control.Valid() && F.Stopped(Model()) && F.Settled(Model()) && A.AllConsistent(Model())
      ensures F.Remaining(Model(), patience) < old(F.Remaining(Model(), patience))
      ensures Model() == M.Run(old(Model()), F.RoundSteps(old(Model()), env, asleep))
    {
      hide M.Apply, M.Run, A.AllConsistent;
      ghost var before := Model();
      F.StoppedIsShut(before);
      A.RunKeepsConsistent(before, F.RoundSteps(before, env, asleep));
      F.RoundLeavesLess(before, env, asleep, patience);
      F.PollSettles(before, env);
      F.RunKeepsStopped(before, P.PollTrace(before, env));
      F.RoundRun(before, env, asleep);
      Poll(env);
      if Busy() {
        F.OthersKeepSettled(Model(), asleep);
        Interleave(asleep);
      } else {
        F.BusyHasSomethingLeft(before, patience);
        F.IdleHasNothingLeft(Model(), patience);
      }
    }

    // Leaves the mailbox free; there is nothing else left to do.
    method SignOff()
      requires control.Valid() && F.Stopped(Model()) && F.Settled(Model()) && !Busy()
      modifies control
      ensures control.Valid() && Model() == old(Model())
      ensures pendingTerminal.None? && changingOutput.None?
      ensures control.outputSnapshots == [] && !control.outputChangeInProgress
    {
      F.NothingIsLeft(Model());
      control.CompleteOutputChange();
      ListsSomething(control.outputSnapshots, control.table);
    }

    predicate Busy()
      reads this
    {
      preparation.Some? || outputs != map[] || groups != map[]
    }

    lemma WhatIsReturned(before: M.Sys, env: F.Farewell, rounds: nat, patience: nat)
      requires I.Valid(before) && A.AllConsistent(before) && F.FairFarewell(env, patience)
      requires F.Stopped(M.Run(before, F.StopSteps(env, M.BeginFinish(before).ctl.nextId)))
      requires M.Run(before, F.FinishSteps(before, env, rounds)).outputs == map[]
      ensures var failure := M.Run(before, F.FinishSteps(before, env, rounds)).failure;
              && (env.cause.Some? && (exists id :: id in before.outputs && O.Alive(before.outputs[id])) ==>
                    failure.Some?)
              && (before.failure.None? && O.Unfailed(before) && O.PeacefulFarewell(env) ==>
                    failure ==
                    if env.cause.Some? && O.AnyAlive(before) then Some(env.cause.value.error) else None)
    {
      hide M.Run, I.Valid, A.AllConsistent, F.Stopped, F.StopSteps, F.FinishSteps, M.BeginFinish, O.Unfailed,
           O.AnyAlive, O.PeacefulFarewell;
      if env.cause.Some? {
        if id :| id in before.outputs && O.Alive(before.outputs[id]) {
          O.CauseIsReturned(before, env, rounds, id);
        }
      }
      if before.failure.None? && O.Unfailed(before) && O.PeacefulFarewell(env) {
        O.FinishReturns(before, env, rounds, patience);
      }
    }

    /** finish() terminates if every branch exits within `patience` polls of being stopped. On return
        nothing is left: no output, group, preparation, pending notification or listed output. The call
        is a run of `rounds` rounds, and what it returns is the first failure that run came upon: some failure
        if it was given one and an output was alive; exactly the given one, or none, if nothing else failed. A
        second call does nothing. */
    method Finish(env: F.Farewell, ghost patience: nat) returns (failure: Option<Error>, ghost rounds: nat)
      requires Valid() && F.FairFarewell(env, patience)
      modifies this, control
      ensures Valid() && finished
      ensures old(finished) ==> failure.None? && Model() == old(Model())
      ensures !old(finished) ==>
                && outputs == map[] && groups == map[] && preparation.None?
                && pendingTerminal.None? && changingOutput.None? && finishing
                && control.outputSnapshots == [] && !control.outputChangeInProgress && !control.outputChangesEnabled
      ensures !old(finished) ==>
                var trace := F.FinishSteps(old(Model()), env, rounds);
                && Model() == M.Run(old(Model()), trace)
                && failure == if old(finishFailure).Some? then old(finishFailure) else N.FirstNoted(old(Model()), trace)
      ensures !old(finished) && env.cause.Some? && (exists id :: id in old(outputs) && O.Alive(old(outputs)[id])) ==>
                failure.Some?
      ensures !old(finished) && old(finishFailure).None? && O.Unfailed(old(Model())) && O.PeacefulFarewell(env) ==>
                failure == if env.cause.Some? && O.AnyAlive(old(Model())) then Some(env.cause.value.error) else None
    {
      hide M.Apply, M.Run, I.Valid, F.Stopped, F.Settled, N.FirstNoted, F.StopSteps, F.RoundsSteps, F.FinishSteps,
           A.AllConsistent, O.Told, O.Unfailed, O.PeacefulFarewell, O.AnyAlive, M.BeginFinish;
      rounds := 0;
      if finished { return None, 0; }
      ghost var before := Model();
      StopAll(env);
      ghost var start := Model();
      F.NoRounds(start, env);
      var i := 0;
      while Busy()
        invariant control.Valid() && F.Stopped(Model()) && F.Settled(Model()) && A.AllConsistent(Model())
        invariant rounds == i && Model() == M.Run(start, F.RoundsSteps(start, env, i))
        decreases F.Remaining(Model(), patience)
      {
        F.RoundsGoOn(start, env, i);
        PollRound(env.polls(i), env.sleeps(i), patience);
        i := i + 1;
        rounds := i;
      }
      F.StoppedIsShut(Model());
      SignOff();
      F.FinishRun(before, env, rounds);
      N.RunNotesFirst(before, F.FinishSteps(before, env, rounds));
      A.RunKeepsConsistent(before, F.FinishSteps(before, env, rounds));
      WhatIsReturned(before, env, rounds, patience);
      finished := true;
      failure := finishFailure;
    }
  }
}
