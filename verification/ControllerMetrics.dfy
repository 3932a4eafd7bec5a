/** The aggregated counters: every branch is counted exactly once, live or retired. */
module ControllerMetrics {
  import opened Wrappers
  import opened OutputTypes
  import opened ControllerModel
  import opened ControllerInvariant
  import opened ControllerEffects
  import opened ControllerRuns
  import opened Sums
  import B = RuntimeBranch
  import C = ControlModel

  // ---- The aggregate ----

  function OutputCounters(outputs: map<nat, Output>): map<nat, nat> {
    map id | id in outputs :: outputs[id].branch.metrics
  }

  function GroupCounters(groups: map<nat, Group>): map<nat, nat> {
    map g | g in groups :: groups[g].branch.metrics
  }

  // What a report shows: the retired branches, the live outputs and the live groups.
  ghost function Total(s: Sys): nat {
    s.retired + Sum(OutputCounters(s.outputs)) + Sum(GroupCounters(s.groups))
  }

  // What the branches themselves have counted during one step: traffic, and what a branch brings
  // with it when it is published.
  function CountedBy(s: Sys, step: Step): nat {
    match step
    case Count(id, g, amount) =>
      (if id in s.outputs then amount else 0) + (if g in s.groups then amount else 0)
    case Constructed(r) =>
      if s.prep.None? || !s.prep.value.exchange.stage.Constructed? then 0
      else
        var task := s.prep.value;
        if task.broken.Some? || task.plan.Failure? || Refusal(s, task, r).Some? then 0
        else (if task.plan.value.encoding.NewGroup? then r.traffic else 0)
             + (if r.ending.OutputNotInserted? then 0 else r.traffic)
    case _ => 0
  }

  // The same branches with the same counters.
  ghost predicate SameCounters(s: Sys, t: Sys) {
    && t.retired == s.retired
    && SameOutputCounters(s.outputs, t.outputs) && SameGroupCounters(s.groups, t.groups)
  }

  ghost predicate SameOutputCounters(a: map<nat, Output>, b: map<nat, Output>) {
    (forall id :: id in a <==> id in b) && forall id :: id in a ==> b[id].branch.metrics == a[id].branch.metrics
  }

  ghost predicate SameGroupCounters(a: map<nat, Group>, b: map<nat, Group>) {
    (forall g :: g in a <==> g in b) && forall g :: g in a ==> b[g].branch.metrics == a[g].branch.metrics
  }

  lemma SameTotal(s: Sys, t: Sys)
    requires SameCounters(s, t)
    ensures Total(t) == Total(s)
  {
    assert OutputCounters(t.outputs) == OutputCounters(s.outputs);
    assert GroupCounters(t.groups) == GroupCounters(s.groups);
  }

  // ---- One step ----

  lemma RejectKeepsCounters(s: Sys, id: nat, f: Fault)
    ensures SameCounters(s, Reject(s, id, f))
  {
  }

  lemma TakeKeepsCounters(s: Sys, r: TakeReading)
    ensures SameCounters(s, Take(s, r))
  {
    if CanTake(s) {
      var change := C.TakeChange(s.ctl).1.value;
      var t := Taken(s);
      if change.addition {
        if r.begin.missing.Some? {
          RejectKeepsCounters(t, change.id, r.begin.missing.value);
        } else if r.begin.noWorker.Some? {
          RejectKeepsCounters(Begun(t, change.id, r.begin).(prep := None), change.id, r.begin.noWorker.value);
        }
        NotifyKeepsCounters(BeginPreparation(t, change.id, r.begin));
      } else if change.id !in s.outputs {
        RejectKeepsCounters(t, change.id, Fault(NO_BRANCH, Drain));
        NotifyKeepsCounters(Reject(t, change.id, Fault(NO_BRANCH, Drain)));
      }
    }
  }

  lemma NotifyKeepsCounters(s: Sys)
    ensures SameCounters(s, Notify(s))
  {
  }

  lemma FinishKeepsCounters(s: Sys)
    ensures SameCounters(s, BeginFinish(s))
  {
    var t := s.(finishing := true, ctl := C.SetEnabled(s.ctl, false));
    var (ctl, change) := C.TakeChange(t.ctl);
    if change.Some? { RejectKeepsCounters(t.(ctl := ctl), change.value.id, Fault(CANCELLED, Publication)); }
  }

  lemma PlannedKeepsCounters(s: Sys, r: AdmitReading)
    ensures SameCounters(s, LookAtPlanned(s, r))
  {
    if s.prep.Some? && s.prep.value.exchange.stage.Planned? {
      PlannedEffect(s, r);
      var verdict := Admission(s, s.prep.value, r);
      if verdict.Failure? { RejectKeepsCounters(Judging(s, r), s.prep.value.id, verdict.error); }
    }
  }

  lemma FinishOutputKeepsCounters(s: Sys, id: nat, cause: Option<Fault>, generation: Option<nat>,
                                  closing: Option<Fault>)
    ensures SameCounters(s, FinishOutput(s, id, cause, generation, closing))
  {
  }

  lemma CalmKeepsCounters(s: Sys, step: Step)
    requires Calm(step) && !step.Count?
    ensures SameCounters(s, Apply(s, step))
  {
    hide Take, BeginFinish, LookAtPlanned, WorkerTurn, FinishOutput;
    match step
    case FinishOutputStep(id, cause, generation, closing) =>
      FinishOutputKeepsCounters(s, id, cause, generation, closing);
    case TakeStep(r) => TakeKeepsCounters(s, r);
    case FinishStep => FinishKeepsCounters(s);
    case Planned(r) => PlannedKeepsCounters(s, r);
    case Work(r) => WorkerEffect(s, r);
    case _ =>
  }

  lemma TrafficIsCounted(s: Sys, id: nat, g: nat, amount: nat)
    ensures Total(Traffic(s, id, g, amount)) == Total(s) + CountedBy(s, Count(id, g, amount))
  {
    var t := Traffic(s, id, g, amount);
    if id in s.outputs {
      assert OutputCounters(t.outputs) == Raised(OutputCounters(s.outputs), id, amount);
      RaisedSum(OutputCounters(s.outputs), id, amount);
    }
    if g in s.groups {
      assert GroupCounters(t.groups) == Raised(GroupCounters(s.groups), g, amount);
      RaisedSum(GroupCounters(s.groups), g, amount);
    }
  }

  function Raised(m: map<nat, nat>, k: nat, amount: nat): map<nat, nat>
    requires k in m
  {
    m[k := m[k] + amount]
  }

  lemma RaisedSum(m: map<nat, nat>, k: nat, amount: nat)
    requires k in m
    ensures Sum(Raised(m, k, amount)) == Sum(m) + amount
  {
    hide Sum;
    SumSplits(m, k);
    SumAdds(m, k, m[k] + amount);
  }

  lemma PromoteKeepsCounters(s: Sys, id: nat, r: OutputReading)
    requires id in s.outputs
    ensures SameCounters(s, Promote(s, id, r))
  {
  }

  lemma LookKeepsCounters(s: Sys, id: nat, r: OutputReading)
    requires id in s.outputs
    ensures SameCounters(s, PollBranch(FailOverdue(s, id, r), id, r).0)
  {
    OverdueKeepsCounters(s, id, r);
    hide FailOverdue, PollBranch;
    OverdueIsQuiet(s, id, r);
    PollKeepsCounters(FailOverdue(s, id, r), id, r);
  }

  lemma PollKeepsCounters(s: Sys, id: nat, r: OutputReading)
    requires id in s.outputs
    ensures SameCounters(s, PollBranch(s, id, r).0)
  {
    var b := Observe(s.outputs[id].branch, r.during);
    PolledMetrics(b, r.poll, r.after);
    hide B.Poll;
  }

  lemma PolledMetrics(b: B.Branch, r: B.PollReading, f: Option<Fault>)
    ensures Observe(B.Poll(b, r).0, f).metrics == b.metrics
  {
  }

  lemma OverdueKeepsCounters(s: Sys, id: nat, r: OutputReading)
    requires id in s.outputs
    ensures SameCounters(s, FailOverdue(s, id, r))
  {
  }

  lemma NoteKeepsCounters(s: Sys, id: nat)
    requires id in s.outputs
    ensures SameCounters(s, NoteFailure(s, id))
  {
  }

  lemma ExamineKeepsCounters(s: Sys, id: nat, r: OutputReading)
    requires id in s.outputs
    ensures SameCounters(s, Examine(s, id, r).0)
  {
    PromoteKeepsCounters(s, id, r);
    PromoteIsQuiet(s, id, r);
    var a := Promote(s, id, r);
    LookKeepsCounters(a, id, r);
    OverdueIsQuiet(a, id, r);
    PollBranchIsQuiet(FailOverdue(a, id, r), id, r);
    NoteKeepsCounters(PollBranch(FailOverdue(a, id, r), id, r).0, id);
  }

  lemma RetireMovesCounters(s: Sys, id: nat)
    requires id in s.outputs
    ensures Total(Retire(s, id)) == Total(s)
  {
    RetireEffect(s, id);
    var t := Retire(s, id);
    var m := OutputCounters(s.outputs);
    assert OutputCounters(t.outputs) == m - {id};
    assert GroupCounters(t.groups) == GroupCounters(s.groups);
    SumSplits(m, id);
  }

  lemma EraseMovesCounters(s: Sys, g: nat, group: Group)
    requires g in s.groups && group.branch.metrics == s.groups[g].branch.metrics
    ensures Total(EraseGroup(s, g, group)) == Total(s)
  {
    var t := EraseGroup(s, g, group);
    var m := GroupCounters(s.groups);
    assert t.outputs == s.outputs && t.groups == s.groups - {g};
    assert GroupCounters(t.groups) == m - {g};
    SumSplits(m, g);
  }

  lemma PollGroupKeepsTotal(s: Sys, g: nat, r: GroupReading)
    ensures Total(PollGroup(s, g, r)) == Total(s)
  {
    var u := s.(unpolled := s.unpolled - {g});
    if g !in s.groups {
      SameTotal(s, u);
    } else {
      var t := if s.groups[g].branch.fault.Some? then FailMembers(u, g) else u;
      assert SameCounters(s, t);
      SameTotal(s, t);
      if s.groups[g].outputCount == 0 { PollUnusedKeepsTotal(t, g, r); }
    }
  }

  lemma PollUnusedKeepsTotal(s: Sys, g: nat, r: GroupReading)
    requires g in s.groups
    ensures Total(PollUnused(s, g, r)) == Total(s)
  {
    var (polled, retired) := Polled(s.groups[g], r);
    assert polled.branch.metrics == s.groups[g].branch.metrics;
    if retired {
      EraseMovesCounters(s, g, polled);
    } else {
      SameTotal(s, s.(groups := s.groups[g := polled]));
    }
  }

  lemma JoinCounts(s: Sys, task: Task, r: PublishReading)
    requires task.plan.Success? && (task.plan.value.encoding.NewGroup? ==> task.target !in s.groups)
    ensures Total(JoinGroup(s, task, r)) == Total(s) + if task.plan.value.encoding.NewGroup? then r.traffic else 0
  {
    if task.plan.value.encoding.NewGroup? {
      var m := GroupCounters(s.groups);
      assert GroupCounters(JoinGroup(s, task, r).groups) == m[task.target := r.traffic];
      SumAdds(m, task.target, r.traffic);
    }
  }

  lemma InsertCounts(s: Sys, task: Task, r: PublishReading)
    requires task.plan.Success? && Target(task) in s.groups && task.id !in s.outputs
    ensures Total(InsertOutput(s, task, r)) == Total(s) + r.traffic
  {
    hide InsertOutput, NewOutput;
    var t := InsertOutput(s, task, r);
    var m := OutputCounters(s.outputs);
    InsertedCounters(s, task, r);
    assert OutputCounters(t.outputs) == m[task.id := r.traffic];
    SumAdds(m, task.id, r.traffic);
  }

  lemma InsertedCounters(s: Sys, task: Task, r: PublishReading)
    requires task.plan.Success? && Target(task) in s.groups
    ensures NewOutput(task, r).branch.metrics == r.traffic && InsertOutput(s, task, r).retired == s.retired
    ensures InsertOutput(s, task, r).outputs == s.outputs[task.id := NewOutput(task, r)]
    ensures GroupCounters(InsertOutput(s, task, r).groups) == GroupCounters(s.groups)
  {
  }

  lemma RejectKeepsTotal(s: Sys, id: nat, f: Fault)
    ensures Total(Reject(s, id, f)) == Total(s)
  {
    RejectKeepsCounters(s, id, f);
    SameTotal(s, Reject(s, id, f));
  }

  // A candidate nobody refuses brings its branches.
  lemma PublicationCounts(s: Sys, task: Task, r: PublishReading)
    requires s.prep == Some(task) && task.plan.Success? && Refusal(s, task, r).None? && task.id !in s.outputs
    requires task.plan.value.encoding.NewGroup? ==> task.target !in s.groups
    ensures Total(PublishPrepared(s, r)) ==
            Total(s) + (if task.plan.value.encoding.NewGroup? then r.traffic else 0)
                     + (if r.ending.OutputNotInserted? then 0 else r.traffic)
  {
    JoinCounts(s, task, r);
    var joined := JoinGroup(s, task, r);
    if r.ending.OutputNotInserted? {
      RejectKeepsTotal(joined, task.id, r.ending.fault);
    } else {
      InsertCounts(joined, task, r);
    }
  }

  lemma SettleCounts(s: Sys, r: PublishReading)
    requires s.prep.Some? && s.prep.value.exchange.stage.Constructed?
    requires s.prep.value.id !in s.outputs
    requires s.prep.value.plan.Success? && s.prep.value.plan.value.encoding.NewGroup? ==>
             s.prep.value.target !in s.groups
    ensures Total(Settle(s, r)) == Total(s) + CountedBy(s, Constructed(r))
  {
    var task := s.prep.value;
    if task.broken.Some? || task.plan.Failure? {
      RejectKeepsTotal(s, task.id, if task.broken.Some? then task.broken.value else Fault(CANCELLED, Publication));
    } else if Refusal(s, task, r).Some? {
      RejectKeepsTotal(s, task.id, Refusal(s, task, r).value);
    } else {
      PublicationCounts(s, task, r);
    }
  }

  lemma ConstructedCounts(s: Sys, r: PublishReading)
    requires Slot(s) && Grouped(s)
    ensures Total(LookAtConstructed(s, r)) == Total(s) + CountedBy(s, Constructed(r))
  {
    if s.prep.Some? && s.prep.value.exchange.stage.Constructed? {
      SettleCounts(s, r);
      var t := Settle(s, r);
      SameTotal(t, if t.prep.Some? then ReleaseWorker(t).(unpolled := t.groups.Keys) else t);
    }
  }

  lemma PollOutputKeepsTotal(s: Sys, id: nat, r: OutputReading)
    ensures Total(PollOutput(s, id, r)) == Total(s)
  {
    hide Examine, Retire, Total;
    if id in s.outputs && s.unpolled == {} {
      ExamineKeepsCounters(s, id, r);
      ExamineIsQuiet(s, id, r);
      var (t, retired) := Examine(s, id, r);
      SameTotal(s, t);
      if retired { RetireMovesCounters(t, id); }
    }
  }

  lemma StepCounts(s: Sys, step: Step)
    requires Valid(s)
    ensures Total(Apply(s, step)) == Total(s) + CountedBy(s, step)
  {
    hide Traffic, LookAtConstructed, PollGroup, PollOutput, Total, Drawn, Listed;
    match step
    case Count(id, g, amount) => TrafficIsCounted(s, id, g, amount);
    case Constructed(r) => ConstructedCounts(s, r);
    case PollGroupStep(g, r) => PollGroupKeepsTotal(s, g, r);
    case PollOutputStep(id, r) => PollOutputKeepsTotal(s, id, r);
    case _ =>
      CalmKeepsCounters(s, step);
      SameTotal(s, Apply(s, step));
  }

  // ---- Whole runs ----

  function AllCounted(s: Sys, steps: seq<Step>): nat
    decreases |steps|
  {
    if steps == [] then 0 else CountedBy(s, steps[0]) + AllCounted(Apply(s, steps[0]), steps[1..])
  }

  /** Conservation over whole runs: the aggregate is exactly what the branches ever counted, so
      publication and retirement lose nothing, count nothing twice, and it never decreases. */
  lemma {:induction false} RunCounts(s: Sys, steps: seq<Step>)
    requires Valid(s)
    ensures Total(Run(s, steps)) == Total(s) + AllCounted(s, steps)
    ensures Total(s) <= Total(Run(s, steps))
    decreases |steps|
  {
    if steps != [] {
      StepCounts(s, steps[0]);
      StepKeepsValid(s, steps[0]);
      RunCounts(Apply(s, steps[0]), steps[1..]);
    }
  }
}
