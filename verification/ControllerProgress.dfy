/** What brings a preparation, a stopping output or an unused group closer to its end. */
module ControllerProgress {
  import opened ControllerModel
  import opened ControllerEffects
  import opened ControllerPoll
  import B = RuntimeBranch
  import X = PreparationExchange

  // ---- The preparation ----

  function WorkerRank(w: X.Worker): nat {
    match w
    case Preparing => 5
    case AwaitingConstruct => 4
    case Building => 3
    case AwaitingRelease => 2
    case Unwinding => 1
    case Done => 0
  }

  // How far the preparation still is from being collected, when no worker waits more than k turns.
  function TaskLeft(task: Task, k: nat): nat {
    1 + (if task.exchange.release then 0 else 1) + (if task.exchange.construct then 0 else 1)
      + WorkerRank(task.exchange.worker) * (k + 1)
    + if task.idle < k then k - task.idle else 0
  }

  // No command can be taken: the session is finishing, or the slot is busy.
  predicate Steady(s: Sys) {
    s.finishing || s.ctl.inProgress
  }

  function PrepLeft(s: Sys, k: nat): nat {
    if s.prep.None? then 0 else TaskLeft(s.prep.value, k)
  }

  predicate SamePrep(s: Sys, t: Sys) {
    || (s.prep.None? && t.prep.None?)
    || (s.prep.Some? && t.prep.Some? && t.prep.value.exchange == s.prep.value.exchange)
  }

  // A step that moves a preparation in this state of its exchange.
  predicate Serves(step: Step, x: X.Exchange, k: nat) {
    match step
    case Planned(_) => x.stage.Planned?
    case Constructed(_) => x.stage.Constructed?
    case Collect => x.worker.Done?
    case Work(r) => r.patience <= k && !X.ControlOwns(x) && !x.worker.Done?
    case _ => false
  }

  lemma WorkerRankDrops(x: X.Exchange)
    requires X.WorkerMove(x) != x && X.Valid(x)
    ensures WorkerRank(X.WorkerMove(x).worker) < WorkerRank(x.worker)
    ensures X.WorkerMove(x).release == x.release && X.WorkerMove(x).construct == x.construct
  {
  }

  lemma MovedIsLess(a: Task, b: Task, k: nat)
    requires WorkerRank(b.exchange.worker) < WorkerRank(a.exchange.worker) && b.exchange.release == a.exchange.release
    requires b.exchange.construct == a.exchange.construct
    ensures TaskLeft(b, k) < TaskLeft(a, k)
  {
    var m, n := WorkerRank(a.exchange.worker), WorkerRank(b.exchange.worker);
    assert m * (k + 1) == n * (k + 1) + (m - n) * (k + 1);
    assert (m - n) * (k + 1) >= k + 1;
  }

  // The preparation has less to go, or is where it was.
  predicate PrepGoesOn(s: Sys, t: Sys, k: nat) {
    PrepLeft(t, k) < PrepLeft(s, k) || (PrepLeft(t, k) == PrepLeft(s, k) && SamePrep(s, t))
  }

  lemma WorkGoesOn(s: Sys, r: WorkerReading, k: nat)
    requires s.prep.Some? ==> X.Valid(s.prep.value.exchange)
    ensures PrepGoesOn(s, WorkerTurn(s, r), k)
    ensures s.prep.Some? && Serves(Work(r), s.prep.value.exchange, k) ==> PrepLeft(WorkerTurn(s, r), k) < PrepLeft(s, k)
  {
    if s.prep.Some? {
      var task := s.prep.value;
      X.HandOffIsExclusive(task.exchange);
      if X.WorkerMove(task.exchange) != task.exchange {
        WorkerRankDrops(task.exchange);
        if r.patience <= task.idle { MovedIsLess(task, WorkerTurn(s, r).prep.value, k); }
      }
    }
  }

  lemma PlannedGoesOn(s: Sys, r: AdmitReading, k: nat)
    requires s.prep.Some? ==> X.Valid(s.prep.value.exchange)
    ensures PrepGoesOn(s, LookAtPlanned(s, r), k)
    ensures s.prep.Some? && s.prep.value.exchange.stage.Planned? ==> PrepLeft(LookAtPlanned(s, r), k) < PrepLeft(s, k)
  {
    if s.prep.Some? && s.prep.value.exchange.stage.Planned? {
      PlannedEffect(s, r);
    }
  }

  lemma ConstructedGoesOn(s: Sys, r: PublishReading, k: nat)
    requires s.prep.Some? ==> X.Valid(s.prep.value.exchange)
    ensures PrepGoesOn(s, LookAtConstructed(s, r), k)
    ensures s.prep.Some? && s.prep.value.exchange.stage.Constructed? ==>
            PrepLeft(LookAtConstructed(s, r), k) < PrepLeft(s, k)
  {
    if s.prep.Some? { SettleEffect(s, r); }
  }

  lemma OthersLeavePrep(s: Sys, step: Step, k: nat)
    requires Steady(s) && !step.Work? && !step.Planned? && !step.Constructed? && !step.Collect?
    ensures PrepLeft(Apply(s, step), k) == PrepLeft(s, k) && SamePrep(s, Apply(s, step))
  {
    hide BeginFinish, FinishOutput, Notify, Expire, PollGroup, Examine, Retire;
    match step
    case TakeStep(r) =>
    case FinishStep => FinishIsQuiet(s);
    case FinishOutputStep(id, cause, generation, closing) => FinishOutputIsQuiet(s, id, cause, generation, closing);
    case NotifyStep => NotifyIsQuiet(s);
    case Budget(elapsed) => ExpireIsQuiet(s, elapsed);
    case PollGroupStep(g, r) => PollGroupEffect(s, g, r);
    case PollOutputStep(id, r) =>
      if id in s.outputs && s.unpolled == {} {
        ExamineIsQuiet(s, id, r);
        RetireEffect(Examine(s, id, r).0, id);
      }
    case _ => ForeignIsQuiet(s, step);
  }

  lemma StepGoesOn(s: Sys, step: Step, k: nat)
    requires Steady(s) && (s.prep.Some? ==> X.Valid(s.prep.value.exchange))
    ensures PrepGoesOn(s, Apply(s, step), k)
    ensures s.prep.Some? && Serves(step, s.prep.value.exchange, k) ==> PrepLeft(Apply(s, step), k) < PrepLeft(s, k)
  {
    match step
    case Work(r) => WorkGoesOn(s, r, k);
    case Planned(r) => PlannedGoesOn(s, r, k);
    case Constructed(r) => ConstructedGoesOn(s, r, k);
    case Collect =>
    case _ => OthersLeavePrep(s, step, k);
  }

  lemma GoesOnTwice(s: Sys, t: Sys, u: Sys, k: nat)
    requires PrepGoesOn(s, t, k) && PrepGoesOn(t, u, k)
    ensures PrepGoesOn(s, u, k)
  {
  }

  // ---- Outputs and groups ----

  lemma PollBranchLeavesLess(s: Sys, id: nat, r: OutputReading, k: nat)
    requires id in s.outputs && r.poll.patience <= k
    requires B.Stopping(s.outputs[id].branch) && !s.outputs[id].branch.state.Prepared?
    ensures var (t, retired) := PollBranch(s, id, r);
            id in t.outputs && (retired || B.Left(t.outputs[id].branch, k) < B.Left(s.outputs[id].branch, k))
  {
    var b := Observe(s.outputs[id].branch, r.during);
    B.AheadLeavesLess(s.outputs[id].branch, b, k);
    B.PollMakesProgress(b, r.poll, k);
    B.AheadLeavesLess(B.Poll(b, r.poll).0, Observe(B.Poll(b, r.poll).0, r.after), k);
  }

  lemma ExamineLeavesLess(s: Sys, id: nat, r: OutputReading, k: nat)
    requires id in s.outputs && r.poll.patience <= k
    requires B.Stopping(s.outputs[id].branch) && !s.outputs[id].branch.state.Prepared?
    ensures var (t, retired) := Examine(s, id, r);
            id in t.outputs && (retired || B.Left(t.outputs[id].branch, k) < B.Left(s.outputs[id].branch, k))
  {
    PromoteIsQuiet(s, id, r);
    var a := Promote(s, id, r);
    OverdueIsQuiet(a, id, r);
    var b := FailOverdue(a, id, r);
    QuietTwice(s, a, b);
    assert SameOutput(s.outputs[id], b.outputs[id]);
    B.AheadLeavesLess(s.outputs[id].branch, b.outputs[id].branch, k);
    PollBranchLeavesLess(b, id, r, k);
    var c := PollBranch(b, id, r).0;
    NoteIsQuiet(c, id);
    assert SameOutput(c.outputs[id], NoteFailure(c, id).outputs[id]);
    B.AheadLeavesLess(c.outputs[id].branch, NoteFailure(c, id).outputs[id].branch, k);
  }

  lemma UnusedGroupLeavesLess(group: Group, r: GroupReading, k: nat)
    requires !group.branch.state.Prepared? && r.poll.patience <= k && (group.draining ==> B.Stopping(group.branch))
    ensures var (polled, retired) := Polled(group, r); retired || B.Left(polled.branch, k) < B.Left(group.branch, k)
  {
    var started := StartGroupDrain(group, r.closing);
    B.AheadLeavesLess(group.branch, started.branch, k);
    B.PollMakesProgress(started.branch, r.poll, k);
    B.AheadLeavesLess(B.Poll(started.branch, r.poll).0, Polled(group, r).0.branch, k);
  }

  // ---- The steps of one round ----

  // Every branch exits within k polls of being told to stop, and the worker gets a turn.
  ghost predicate Fair(env: Surroundings, asleep: seq<Step>, k: nat) {
    && (forall g :: env.groups(g).poll.patience <= k)
    && (forall id :: env.outputs(id).poll.patience <= k)
    && (exists r :: Work(r) in asleep && r.patience <= k)
  }

  lemma StepsInTrace(s: Sys, env: Surroundings, asleep: seq<Step>)
    ensures var trace := PollTrace(s, env) + asleep;
            && Planned(env.planned) in trace && Constructed(env.constructed) in trace && Collect in trace
            && forall step :: step in asleep ==> step in trace
  {
    var first := PreparationSteps(env);
    assert Planned(env.planned) in first && Constructed(env.constructed) in first && Collect in first;
    assert forall step :: step in first ==> step in Opening(s, env);
    assert forall step :: step in Opening(s, env) ==> step in PollTrace(s, env);
  }

  lemma {:induction false} OutputStepsHas(env: Surroundings, n: nat, id: nat)
    requires id < n && Proper(env)
    ensures PollOutputStep(id, env.outputs(id)) in OutputSteps(env, n)
    ensures forall step :: step in OutputSteps(env, n) ==> !step.Constructed?
  {
    assert ForeignOnly(env.others(6, n - 1));
    if id < n - 1 {
      OutputStepsHas(env, n - 1, id);
    } else if n > 1 {
      OutputStepsHas(env, n - 1, 0);
    }
  }

  lemma {:induction false} GroupStepsHas(env: Surroundings, n: nat, g: nat)
    requires g < n
    ensures PollGroupStep(g, env.groups(g)) in GroupSteps(env, false, n)
  {
    if g < n - 1 { GroupStepsHas(env, n - 1, g); }
  }
}
