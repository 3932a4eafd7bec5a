/** The egress account inside the controller: its counter over whole runs. */
module ControllerEgress {
  import opened Wrappers
  import opened OutputTypes
  import opened ControllerModel
  import opened ControllerInvariant
  import opened ControllerEffects
  import opened ControllerRuns
  import opened Sums
  import E = EgressAccount
  import C = ControlModel

  // ---- Who holds what ----

  function OutputLeases(outputs: map<nat, Output>): map<nat, nat> {
    map id | id in outputs :: outputs[id].lease
  }

  // The live outputs hold their leases, and an admitted candidate that has not been published its own.
  function Leases(outputs: map<nat, Output>, prep: Option<Task>): map<nat, nat> {
    var ofOutputs := OutputLeases(outputs);
    if prep.Some? && prep.value.lease > 0 then ofOutputs[prep.value.id := prep.value.lease] else ofOutputs
  }

  function AccountOf(s: Sys): E.Account {
    E.Account(s.capacity, s.reserved, Leases(s.outputs, s.prep), None)
  }

  // An admitted, unsettled candidate has a lease; a candidate with a lease has no output yet.
  ghost predicate LeaseHeld(s: Sys) {
    s.prep.Some? ==>
      && (s.prep.value.exchange.construct && !s.prep.value.exchange.release ==> s.prep.value.lease > 0)
      && (s.prep.value.lease > 0 ==> s.prep.value.exchange.construct && s.prep.value.id !in s.outputs)
  }

  ghost predicate Accounted(s: Sys) {
    E.Valid(AccountOf(s)) && LeaseHeld(s)
  }

  // What a step does to the account: an admission checks and adds, a retirement and the end of a
  // candidate release.
  function AccountSteps(s: Sys, step: Step): seq<E.Step> {
    match step
    case Planned(r) =>
      if s.prep.Some? && s.prep.value.exchange.stage.Planned? && Admission(s, s.prep.value, r).Success?
      then [E.Check(r.bytes), E.Add(s.prep.value.id)] else []
    case PollOutputStep(id, _) =>
      if id in s.outputs && id !in Apply(s, step).outputs then [E.Release(id)] else []
    case Collect =>
      if s.prep.Some? && s.prep.value.exchange.worker.Done? && s.prep.value.lease > 0
      then [E.Release(s.prep.value.id)] else []
    case _ => []
  }

  // ---- Steps that leave the account alone ----

  ghost predicate SameLeases(a: map<nat, Output>, b: map<nat, Output>) {
    (forall id :: id in a <==> id in b) && forall id :: id in a ==> b[id].lease == a[id].lease
  }

  // The same leases in the same hands.
  ghost predicate SameAccount(s: Sys, t: Sys) {
    && t.capacity == s.capacity && t.reserved == s.reserved && SameLeases(s.outputs, t.outputs)
    && (s.prep.Some? <==> t.prep.Some?)
    && (s.prep.Some? ==>
          && t.prep.value.id == s.prep.value.id && t.prep.value.lease == s.prep.value.lease
          && t.prep.value.exchange.construct == s.prep.value.exchange.construct
          && (s.prep.value.exchange.release ==> t.prep.value.exchange.release))
  }

  lemma SameAccountIsKept(s: Sys, t: Sys)
    requires SameAccount(s, t) && LeaseHeld(s)
    ensures AccountOf(t) == AccountOf(s) && LeaseHeld(t)
  {
    assert OutputLeases(t.outputs) == OutputLeases(s.outputs);
  }

  lemma SameOutputsSameLeases(a: map<nat, Output>, b: map<nat, Output>)
    requires SameOutputs(a, b)
    ensures SameLeases(a, b)
  {
    forall id | id in a ensures b[id].lease == a[id].lease {
      assert SameOutput(a[id], b[id]);
    }
  }

  lemma RejectLeavesAccount(s: Sys, id: nat, f: Fault)
    ensures Reject(s, id, f).reserved == s.reserved && Reject(s, id, f).capacity == s.capacity
  {
  }

  lemma NotifyLeavesAccount(s: Sys)
    ensures Notify(s).reserved == s.reserved && Notify(s).capacity == s.capacity
  {
  }

  lemma FinishLeavesAccount(s: Sys)
    ensures SameAccount(s, BeginFinish(s))
  {
    hide Reject, Notify;
    FinishIsQuiet(s);
    var t := s.(finishing := true, ctl := C.SetEnabled(s.ctl, false));
    var (ctl, change) := C.TakeChange(t.ctl);
    var u := if change.Some? then Reject(t.(ctl := ctl), change.value.id, Fault(CANCELLED, Publication)) else t;
    if change.Some? { RejectLeavesAccount(t.(ctl := ctl), change.value.id, Fault(CANCELLED, Publication)); }
    NotifyLeavesAccount(u);
  }

  lemma GroupPollLeavesAccount(s: Sys, g: nat, r: GroupReading)
    ensures SameAccount(s, PollGroup(s, g, r))
  {
    GroupPollLeavesReserved(s, g, r);
    hide PollGroup;
    PollGroupEffect(s, g, r);
    SameOutputsSameLeases(s.outputs, PollGroup(s, g, r).outputs);
  }

  lemma EraseLeavesReserved(s: Sys, g: nat, group: Group)
    ensures EraseGroup(s, g, group).reserved == s.reserved && EraseGroup(s, g, group).capacity == s.capacity
  {
  }

  lemma GroupPollLeavesReserved(s: Sys, g: nat, r: GroupReading)
    ensures PollGroup(s, g, r).reserved == s.reserved && PollGroup(s, g, r).capacity == s.capacity
  {
    hide Polled, EraseGroup;
    if g in s.groups {
      var u := s.(unpolled := s.unpolled - {g});
      EraseLeavesReserved(if s.groups[g].branch.fault.Some? then FailMembers(u, g) else u, g, Polled(s.groups[g], r).0);
    }
  }

  lemma FinishOutputLeavesAccount(s: Sys, id: nat, cause: Option<Fault>, generation: Option<nat>,
                                  closing: Option<Fault>)
    ensures SameAccount(s, FinishOutput(s, id, cause, generation, closing))
  {
  }

  // Steps that neither take a command, nor look at a candidate, nor retire.
  lemma OtherStepsLeaveAccount(s: Sys, step: Step)
    requires !step.TakeStep? && !step.Planned? && !step.Constructed? && !step.Collect? && !step.PollOutputStep?
    ensures SameAccount(s, Apply(s, step))
  {
    hide PollGroup, BeginFinish, FinishOutput, Notify, Expire, WorkerTurn;
    match step
    case PollGroupStep(g, r) => GroupPollLeavesAccount(s, g, r);
    case FinishStep => FinishLeavesAccount(s);
    case FinishOutputStep(id, cause, generation, closing) =>
      FinishOutputLeavesAccount(s, id, cause, generation, closing);
    case NotifyStep =>
      NotifyIsQuiet(s);
      NotifyLeavesAccount(s);
    case Budget(elapsed) => ExpireLeavesAccount(s, elapsed);
    case Work(r) => WorkerEffect(s, r);
    case OutputFails(_, _) => BranchStepLeavesAccount(s, step);
    case GroupFails(_, _, _) => BranchStepLeavesAccount(s, step);
    case Count(_, _, _) => BranchStepLeavesAccount(s, step);
    case _ =>
  }

  lemma BranchStepLeavesAccount(s: Sys, step: Step)
    requires step.OutputFails? || step.GroupFails? || step.Count?
    ensures SameAccount(s, Apply(s, step))
  {
    hide Apply;
    BranchStepEffect(s, step);
    SameOutputsSameLeases(s.outputs, Apply(s, step).outputs);
  }

  lemma ExpireLeavesAccount(s: Sys, elapsed: nat)
    ensures SameAccount(s, Expire(s, elapsed))
  {
  }

  // ---- The steps that do not ----

  lemma TakeLeavesReserved(s: Sys, r: TakeReading)
    ensures Take(s, r).reserved == s.reserved && Take(s, r).capacity == s.capacity
    ensures s.prep.None? && Take(s, r).prep.Some? ==> Take(s, r).prep.value.lease == 0
  {
    if CanTake(s) {
      hide Reject, Notify;
      var change := C.TakeChange(s.ctl).1.value;
      var t := Taken(s);
      if change.addition {
        if r.begin.missing.Some? {
          RejectLeavesAccount(t, change.id, r.begin.missing.value);
          RejectIsQuiet(t, change.id, r.begin.missing.value);
        } else if r.begin.noWorker.Some? {
          RejectLeavesAccount(Begun(t, change.id, r.begin).(prep := None), change.id, r.begin.noWorker.value);
          RejectIsQuiet(Begun(t, change.id, r.begin).(prep := None), change.id, r.begin.noWorker.value);
        }
        NotifyLeavesAccount(BeginPreparation(t, change.id, r.begin));
        NotifyIsQuiet(BeginPreparation(t, change.id, r.begin));
      } else if change.id !in s.outputs {
        RejectLeavesAccount(t, change.id, Fault(NO_BRANCH, Drain));
        RejectIsQuiet(t, change.id, Fault(NO_BRANCH, Drain));
        NotifyLeavesAccount(Reject(t, change.id, Fault(NO_BRANCH, Drain)));
        NotifyIsQuiet(Reject(t, change.id, Fault(NO_BRANCH, Drain)));
      }
    }
  }

  lemma TakeKeepsAccount(s: Sys, r: TakeReading)
    requires LeaseHeld(s)
    ensures AccountOf(Take(s, r)) == AccountOf(s) && LeaseHeld(Take(s, r))
  {
    TakeLeavesReserved(s, r);
    TakeIsQuiet(s, r);
    hide Take;
    var t := Take(s, r);
    SameOutputsSameLeases(s.outputs, t.outputs);
    assert OutputLeases(t.outputs) == OutputLeases(s.outputs);
  }

  lemma AccountRunsTwo(a: E.Account, x: E.Step, y: E.Step)
    ensures E.Run(a, [x, y]) == E.Apply(E.Apply(a, x), y) && E.Run(a, [x]) == E.Apply(a, x) && E.Run(a, []) == a
  {
    assert [x, y][1..] == [y] && [y][1..] == [] && [x][1..] == [];
    assert E.Run(a, [x, y]) == E.Run(E.Apply(a, x), [y]);
    assert E.Run(E.Apply(a, x), [y]) == E.Run(E.Apply(E.Apply(a, x), y), []);
    assert E.Run(a, [x]) == E.Run(E.Apply(a, x), []);
  }

  lemma PlannedCandidate(s: Sys)
    requires Slot(s) && LeaseHeld(s) && s.prep.Some? && s.prep.value.exchange.stage.Planned?
    ensures s.prep.value.lease == 0 && s.prep.value.id !in s.outputs && !s.prep.value.exchange.release
  {
  }

  lemma AdmissionReserves(s: Sys, r: AdmitReading)
    requires Slot(s) && Accounted(s) && s.prep.Some? && s.prep.value.exchange.stage.Planned?
    requires Admission(s, s.prep.value, r).Success?
    ensures var t := LookAtPlanned(s, r);
            LeaseHeld(t) && AccountOf(t) == E.Run(AccountOf(s), [E.Check(r.bytes), E.Add(s.prep.value.id)])
  {
    var task := s.prep.value;
    assert Fits(s, r.bytes);
    hide Choice, Slot;
    PlannedCandidate(s);
    PlannedEffect(s, r);
    AccountRunsTwo(AccountOf(s), E.Check(r.bytes), E.Add(task.id));
    hide LookAtPlanned, Admission;
  }

  lemma RefusalReservesNothing(s: Sys, r: AdmitReading)
    requires Slot(s) && LeaseHeld(s)
    requires s.prep.None? || !s.prep.value.exchange.stage.Planned? || Admission(s, s.prep.value, r).Failure?
    ensures LeaseHeld(LookAtPlanned(s, r)) && AccountOf(LookAtPlanned(s, r)) == AccountOf(s)
  {
    if s.prep.Some? && s.prep.value.exchange.stage.Planned? {
      hide Reject, Choice;
      PlannedCandidate(s);
      PlannedEffect(s, r);
      var f := Admission(s, s.prep.value, r).error;
      RejectIsQuiet(Judging(s, r), s.prep.value.id, f);
      RejectLeavesAccount(Judging(s, r), s.prep.value.id, f);
    }
  }

  lemma ReleaseKeepsAccount(s: Sys, unpolled: set<nat>)
    requires s.prep.Some? && LeaseHeld(s)
    ensures var t := ReleaseWorker(s).(unpolled := unpolled); LeaseHeld(t) && AccountOf(t) == AccountOf(s)
  {
  }

  // The lease goes with the output.
  lemma InsertKeepsAccount(s: Sys, task: Task, r: PublishReading, unpolled: set<nat>)
    requires s.prep == Some(task) && task.plan.Success? && Target(task) in s.groups
    requires task.lease > 0 && task.id !in s.outputs
    ensures var t := ReleaseWorker(InsertOutput(s, task, r)).(unpolled := unpolled);
            LeaseHeld(t) && AccountOf(t) == AccountOf(s)
  {
    InsertedLease(s, task, r);
    hide InsertOutput, NewOutput;
    var t := InsertOutput(s, task, r);
    assert OutputLeases(t.outputs) == OutputLeases(s.outputs)[task.id := task.lease];
  }

  lemma InsertedLease(s: Sys, task: Task, r: PublishReading)
    requires task.plan.Success? && Target(task) in s.groups
    ensures var t := InsertOutput(s, task, r);
            && t.outputs == s.outputs[task.id := NewOutput(task, r)] && NewOutput(task, r).lease == task.lease
            && t.prep == s.prep && t.reserved == s.reserved && t.capacity == s.capacity
  {
  }

  lemma JoinKeepsAccount(s: Sys, task: Task, r: PublishReading)
    requires task.plan.Success?
    ensures var t := JoinGroup(s, task, r);
            t.outputs == s.outputs && t.prep == s.prep && t.reserved == s.reserved && t.capacity == s.capacity
  {
  }

  lemma RejectKeepsAccount(s: Sys, id: nat, f: Fault, unpolled: set<nat>)
    requires s.prep.Some? && LeaseHeld(s)
    ensures var t := ReleaseWorker(Reject(s, id, f)).(unpolled := unpolled);
            LeaseHeld(t) && AccountOf(t) == AccountOf(s)
  {
    RejectIsQuiet(s, id, f);
    RejectLeavesAccount(s, id, f);
    hide Reject;
    ReleaseKeepsAccount(Reject(s, id, f), unpolled);
  }

  lemma ConstructedKeepsAccount(s: Sys, r: PublishReading)
    requires Slot(s) && LeaseHeld(s)
    ensures LeaseHeld(LookAtConstructed(s, r)) && AccountOf(LookAtConstructed(s, r)) == AccountOf(s)
  {
    if s.prep.Some? && s.prep.value.exchange.stage.Constructed? {
      var task := s.prep.value;
      ConstructedCandidate(s);
      SettleEffect(s, r);
      hide Reject, InsertOutput, JoinGroup, AccountOf, LeaseHeld, Slot, NewOutput;
      var unpolled := Settle(s, r).groups.Keys;
      if task.broken.Some? || task.plan.Failure? {
        var f := if task.broken.Some? then task.broken.value else Fault(CANCELLED, Publication);
        RejectKeepsAccount(s, task.id, f, unpolled);
      } else if Refusal(s, task, r).Some? {
        RejectKeepsAccount(s, task.id, Refusal(s, task, r).value, unpolled);
      } else {
        var joined := JoinGroup(s, task, r);
        JoinedAccount(s, task, r);
        if r.ending.OutputNotInserted? {
          RejectKeepsAccount(joined, task.id, r.ending.fault, unpolled);
        } else {
          InsertKeepsAccount(joined, task, r, unpolled);
        }
      }
    }
  }

  lemma JoinedAccount(s: Sys, task: Task, r: PublishReading)
    requires task.plan.Success? && s.prep == Some(task) && LeaseHeld(s)
    ensures var t := JoinGroup(s, task, r);
            AccountOf(t) == AccountOf(s) && LeaseHeld(t) && t.prep == s.prep && t.outputs == s.outputs
  {
    JoinKeepsAccount(s, task, r);
    hide JoinGroup;
  }

  lemma ConstructedCandidate(s: Sys)
    requires Slot(s) && LeaseHeld(s) && s.prep.Some? && s.prep.value.exchange.stage.Constructed?
    ensures s.prep.value.lease > 0 && s.prep.value.id !in s.outputs
  {
  }

  lemma CollectReleases(s: Sys)
    requires Accounted(s)
    ensures LeaseHeld(Reap(s)) && AccountOf(Reap(s)) == E.Run(AccountOf(s), AccountSteps(s, Collect))
  {
    if s.prep.Some? && s.prep.value.exchange.worker.Done? {
      var id := s.prep.value.id;
      AccountRunsTwo(AccountOf(s), E.Release(id), E.Release(id));
      E.StepKeepsValid(AccountOf(s), E.Release(id));
      if s.prep.value.lease > 0 {
        assert OutputLeases(s.outputs)[id := s.prep.value.lease] - {id} == OutputLeases(s.outputs);
      }
    }
  }

  lemma RetireLeases(s: Sys, id: nat)
    requires id in s.outputs
    ensures var t := Retire(s, id);
            && t.outputs == s.outputs - {id} && t.prep == s.prep && t.capacity == s.capacity
            && t.reserved == s.reserved - s.outputs[id].lease
  {
  }

  lemma RetireReleases(s: Sys, id: nat)
    requires Accounted(s) && id in s.outputs
    ensures LeaseHeld(Retire(s, id)) && AccountOf(Retire(s, id)) == E.Run(AccountOf(s), [E.Release(id)])
  {
    RetireLeases(s, id);
    hide Retire;
    AccountRunsTwo(AccountOf(s), E.Release(id), E.Release(id));
    E.StepKeepsValid(AccountOf(s), E.Release(id));
    assert OutputLeases(s.outputs - {id}) == OutputLeases(s.outputs) - {id};
    assert Leases(s.outputs - {id}, s.prep) == Leases(s.outputs, s.prep) - {id};
  }

  lemma ExamineLeavesReserved(s: Sys, id: nat, r: OutputReading)
    requires id in s.outputs
    ensures var t := Examine(s, id, r).0; t.reserved == s.reserved && t.capacity == s.capacity
  {
    hide Promote;
    PromoteShape(s, id, r);
  }

  lemma PollOutputReleases(s: Sys, id: nat, r: OutputReading)
    requires Accounted(s)
    ensures var t := PollOutput(s, id, r);
            LeaseHeld(t) && AccountOf(t) == E.Run(AccountOf(s), AccountSteps(s, PollOutputStep(id, r)))
  {
    AccountRunsTwo(AccountOf(s), E.Release(id), E.Release(id));
    if id in s.outputs && s.unpolled == {} {
      ExamineLeavesReserved(s, id, r);
      ExamineIsQuiet(s, id, r);
      var (t, retired) := Examine(s, id, r);
      RetireEffect(t, id);
      hide Examine, Retire, E.Run, E.Valid, E.Apply;
      SameOutputsSameLeases(s.outputs, t.outputs);
      SameAccountIsKept(s, t);
      if retired { RetireReleases(t, id); }
    }
  }

  lemma PlannedReserves(s: Sys, r: AdmitReading)
    requires Slot(s) && Accounted(s)
    ensures var t := LookAtPlanned(s, r);
            LeaseHeld(t) && AccountOf(t) == E.Run(AccountOf(s), AccountSteps(s, Planned(r)))
  {
    hide LookAtPlanned, Admission, Slot, E.Valid;
    AccountRunsTwo(AccountOf(s), E.Abandon, E.Abandon);
    if s.prep.Some? && s.prep.value.exchange.stage.Planned? && Admission(s, s.prep.value, r).Success? {
      AdmissionReserves(s, r);
    } else {
      RefusalReservesNothing(s, r);
    }
  }

  /** Every step of the controller is a run of the egress account: an admission checks and adds, a
      retirement and the end of an unpublished candidate release, and nothing else touches it. */
  lemma StepIsAnAccountRun(s: Sys, step: Step)
    requires Slot(s) && Accounted(s)
    ensures LeaseHeld(Apply(s, step)) && AccountOf(Apply(s, step)) == E.Run(AccountOf(s), AccountSteps(s, step))
  {
    hide Take, LookAtPlanned, LookAtConstructed, Reap, PollOutput, AccountOf, LeaseHeld, Slot, E.Run, E.Valid;
    match step
    case TakeStep(r) =>
      TakeKeepsAccount(s, r);
      AccountRunsNone(AccountOf(s));
    case Planned(r) => PlannedReserves(s, r);
    case Constructed(r) =>
      ConstructedKeepsAccount(s, r);
      AccountRunsNone(AccountOf(s));
    case Collect => CollectReleases(s);
    case PollOutputStep(id, r) => PollOutputReleases(s, id, r);
    case _ => OtherStepsAreNoRun(s, step);
  }

  lemma AccountRunsNone(a: E.Account)
    ensures E.Run(a, []) == a
  {
  }

  lemma OtherStepsAreNoRun(s: Sys, step: Step)
    requires LeaseHeld(s)
    requires !step.TakeStep? && !step.Planned? && !step.Constructed? && !step.Collect? && !step.PollOutputStep?
    ensures LeaseHeld(Apply(s, step)) && AccountOf(Apply(s, step)) == E.Run(AccountOf(s), AccountSteps(s, step))
  {
    hide Apply;
    OtherStepsLeaveAccount(s, step);
    SameAccountIsKept(s, Apply(s, step));
    AccountRunsNone(AccountOf(s));
  }

  // ---- Whole runs ----

  lemma StepKeepsAccounted(s: Sys, step: Step)
    requires Slot(s) && Accounted(s)
    ensures Accounted(Apply(s, step)) && Apply(s, step).capacity == s.capacity
  {
    hide Apply, Slot, LeaseHeld, AccountSteps, Leases, E.Valid, E.Run;
    StepIsAnAccountRun(s, step);
    E.RunKeepsValid(AccountOf(s), AccountSteps(s, step));
  }

  /** Egress conservation over whole runs: the counter is exactly the sum of the leases of the live
      outputs and of the admitted candidate, and never exceeds the session's capacity. */
  lemma {:induction false} RunKeepsAccounted(s: Sys, steps: seq<Step>)
    requires Valid(s) && Accounted(s)
    ensures Accounted(Run(s, steps)) && 0 <= Run(s, steps).reserved <= s.capacity
    ensures Run(s, steps).capacity == s.capacity
    decreases |steps|
  {
    if steps != [] {
      hide Apply, Accounted, Valid;
      StepKeepsValid(s, steps[0]);
      ValidIsSlotted(s);
      StepKeepsAccounted(s, steps[0]);
      RunKeepsAccounted(Apply(s, steps[0]), steps[1..]);
    }
  }

  lemma ValidIsSlotted(s: Sys)
    requires Valid(s)
    ensures Slot(s)
  {
  }

  /** A session whose initial output fits is accounted for. */
  lemma InitialIsAccounted(shared: set<nat>, encoding: set<nat>, protocol: set<nat>, generation: nat, startedAt: nat,
                           startupWait: nat, traffic: nat, capacity: nat, lease: nat)
    requires lease <= capacity < E.WORD
    ensures Accounted(Initial(shared, encoding, protocol, generation, startedAt, startupWait, traffic, capacity, lease))
  {
    var s := Initial(shared, encoding, protocol, generation, startedAt, startupWait, traffic, capacity, lease);
    var none: map<nat, nat> := map[];
    assert Leases(s.outputs, s.prep) == none[1 := lease];
    SumAdds(none, 1, lease);
    assert none - {1} == none;
  }
}
