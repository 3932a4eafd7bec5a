/** How an output's published state may move, over whole runs. */
module ControllerHistory {
  import opened Wrappers
  import opened OutputTypes
  import opened ControllerModel
  import opened ControllerInvariant
  import opened ControllerEffects
  import opened ControllerSlot
  import opened ControllerTable
  import opened ControllerRuns
  import B = RuntimeBranch
  import C = ControlModel

  // ---- Exactly when the published states move forward ----

  // A drain of this output would be accepted although callers have already seen it Failed.
  predicate DrainsFailed(s: Sys, id: nat, closing: Option<Fault>) {
    && id in s.outputs && id in s.ctl.table && s.ctl.table[id].state.Failed?
    && s.outputs[id].branch.state.Active? && closing.None?
  }

  // The step is such a drain: the branch's state is examined, its recorded failure is not.
  predicate Regresses(s: Sys, step: Step) {
    match step
    case TakeStep(r) =>
      CanTake(s) && !s.ctl.pending.value.addition && DrainsFailed(s, s.ctl.pending.value.id, r.closing)
    case FinishOutputStep(id, cause, _, closing) =>
      s.finishing && cause.None? && DrainsFailed(s, id, closing)
    case _ => false
  }

  // No write of Failed or Retired moves backward.
  lemma FailureIsForward(c: C.Control, snapshot: Snapshot)
    requires C.Sound(c) && (snapshot.state.Failed? || snapshot.state.Retired?)
    ensures C.Forward(C.Publish(c, snapshot).history) <==> C.Forward(c.history)
  {
    C.PublishForward(c, snapshot);
  }

  lemma RejectIsForward(s: Sys, id: nat, f: Fault)
    requires C.Sound(s.ctl)
    ensures C.Forward(Reject(s, id, f).ctl.history) <==> C.Forward(s.ctl.history)
    ensures C.Sound(Reject(s, id, f).ctl)
  {
    RejectIsQuiet(s, id, f);
    hide Reject;
    FailureIsForward(s.ctl, Snapshot(id, Failed, f.stage, Some(f.error)));
    C.ApplyKeepsSound(s.ctl, C.Write(Snapshot(id, Failed, f.stage, Some(f.error))));
  }

  lemma NotifyIsForward(s: Sys)
    requires C.Sound(s.ctl) && (s.terminal.Some? ==> s.terminal.value.state.Retired?)
    ensures C.Forward(Notify(s).ctl.history) <==> C.Forward(s.ctl.history)
  {
    if Notify(s) != s {
      FailureIsForward(s.ctl, s.terminal.value);
      assert Notify(s).ctl.history == C.Publish(s.ctl, s.terminal.value).history;
    }
  }

  lemma DrainForward(s: Sys, id: nat, generation: Option<nat>, closing: Option<Fault>)
    requires Listed(s) && id in s.outputs
    ensures C.Forward(DrainOutput(s, id, generation, closing).ctl.history) <==>
            C.Forward(s.ctl.history) && !DrainsFailed(s, id, closing)
  {
    var t := DrainOutput(s, id, generation, closing);
    assert OutputListed(s, id);
    if t.ctl != s.ctl || DrainsFailed(s, id, closing) {
      C.PublishForward(s.ctl, SnapshotOf(id, t.outputs[id]));
    }
  }

  lemma BegunIsForward(s: Sys, id: nat, r: BeginReading)
    requires C.Sound(s.ctl) && (id in s.ctl.table ==> s.ctl.table[id].state.Preparing?)
    ensures C.Forward(Begun(s, id, r).ctl.history) <==> C.Forward(s.ctl.history)
    ensures C.Sound(Begun(s, id, r).ctl)
  {
    C.PublishForward(s.ctl, Snapshot(id, Preparing, Preparation, None));
    C.ApplyKeepsSound(s.ctl, C.Write(Snapshot(id, Preparing, Preparation, None)));
  }

  lemma BeginIsForward(s: Sys, id: nat, r: BeginReading)
    requires C.Sound(s.ctl) && (id in s.ctl.table ==> s.ctl.table[id].state.Preparing?)
    ensures C.Forward(BeginPreparation(s, id, r).ctl.history) <==> C.Forward(s.ctl.history)
    ensures C.Sound(BeginPreparation(s, id, r).ctl)
  {
    BegunIsForward(s, id, r);
    if r.missing.Some? {
      RejectIsForward(s, id, r.missing.value);
    } else if r.noWorker.Some? {
      RejectIsForward(Begun(s, id, r).(prep := None), id, r.noWorker.value);
    }
  }

  lemma TakeForward(s: Sys, r: TakeReading)
    requires Valid(s)
    ensures C.Forward(Take(s, r).ctl.history) <==> C.Forward(s.ctl.history) && !Regresses(s, TakeStep(r))
  {
    if CanTake(s) {
      var change := s.ctl.pending.value;
      var t := Taken(s);
      TakenListed(s);
      hide Reject, BeginPreparation, Notify, DrainOutput, Grouped, Drawn, C.Forward;
      if change.addition {
        BeginIsForward(t, change.id, r.begin);
        BeginKeepsSlot(t, change.id, r.begin);
        NotifyIsForward(BeginPreparation(t, change.id, r.begin));
      } else if change.id !in s.outputs {
        RejectIsForward(t, change.id, Fault(NO_BRANCH, Drain));
        RejectDecides(t, change.id, Fault(NO_BRANCH, Drain));
        NotifyIsForward(Reject(t, change.id, Fault(NO_BRANCH, Drain)));
      } else {
        DrainForward(t, change.id, r.generation, r.closing);
      }
    }
  }

  lemma FinishIsForward(s: Sys)
    requires Valid(s)
    ensures C.Forward(BeginFinish(s).ctl.history) <==> C.Forward(s.ctl.history)
  {
    var t := s.(finishing := true, ctl := C.SetEnabled(s.ctl, false));
    C.ApplyKeepsSound(s.ctl, C.Enable(false));
    C.ApplyKeepsSound(t.ctl, C.Take);
    if s.ctl.pending.Some? {
      var u := t.(ctl := C.TakeChange(t.ctl).0);
      RejectIsForward(u, s.ctl.pending.value.id, Fault(CANCELLED, Publication));
      NotifyIsForward(Reject(u, s.ctl.pending.value.id, Fault(CANCELLED, Publication)));
    } else {
      NotifyIsForward(t);
    }
  }

  lemma PromoteIsForward(s: Sys, id: nat, r: OutputReading)
    requires Listed(s) && id in s.outputs
    ensures C.Forward(Promote(s, id, r).ctl.history) <==> C.Forward(s.ctl.history)
  {
    var t := Promote(s, id, r);
    assert OutputListed(s, id);
    C.PublishForward(s.ctl, SnapshotOf(id, t.outputs[id]));
  }

  lemma ExamineIsForward(s: Sys, id: nat, r: OutputReading)
    requires Slot(s) && Listed(s) && id in s.outputs
    ensures var t := Examine(s, id, r).0;
            id in t.outputs && C.Sound(t.ctl) && (C.Forward(t.ctl.history) <==> C.Forward(s.ctl.history))
  {
    PromoteIsForward(s, id, r);
    PromoteKeepsListed(s, id, r);
    PromoteIsQuiet(s, id, r);
    var a := Promote(s, id, r);
    OverdueIsQuiet(a, id, r);
    var b := FailOverdue(a, id, r);
    PollBranchIsQuiet(b, id, r);
    var c := PollBranch(b, id, r).0;
    assert c.ctl == a.ctl;
    NoteForward(c, id);
    NoteIsQuiet(c, id);
  }

  lemma PollOutputIsForward(s: Sys, id: nat, r: OutputReading)
    requires Slot(s) && Listed(s)
    ensures C.Forward(PollOutput(s, id, r).ctl.history) <==> C.Forward(s.ctl.history)
  {
    if id in s.outputs && s.unpolled == {} {
      ExamineIsForward(s, id, r);
      var (t, retired) := Examine(s, id, r);
      if retired { RetireForward(t, id); }
    }
  }

  lemma NoteForward(s: Sys, id: nat)
    requires C.Sound(s.ctl) && id in s.outputs
    ensures C.Forward(NoteFailure(s, id).ctl.history) <==> C.Forward(s.ctl.history)
    ensures C.Sound(NoteFailure(s, id).ctl)
  {
    hide C.Sound, C.Forward;
    var t := NoteFailure(s, id);
    if t != s {
      FailureIsForward(s.ctl, SnapshotOf(id, t.outputs[id]));
      C.ApplyKeepsSound(s.ctl, C.Write(SnapshotOf(id, t.outputs[id])));
    }
  }

  lemma RetireForward(s: Sys, id: nat)
    requires C.Sound(s.ctl) && id in s.outputs
    ensures C.Forward(Retire(s, id).ctl.history) <==> C.Forward(s.ctl.history)
  {
    var terminal := SnapshotOf(id, s.outputs[id].(state := Retired));
    FailureIsForward(s.ctl, terminal);
    var h := Retire(s, id).ctl.history;
    assert h == s.ctl.history || h == C.Publish(s.ctl, terminal).history;
  }

  lemma PollGroupIsForward(s: Sys, g: nat, r: GroupReading)
    requires C.Sound(s.ctl)
    ensures C.Forward(PollGroup(s, g, r).ctl.history) <==> C.Forward(s.ctl.history)
  {
    hide Polled, EraseGroup;
    var u := s.(unpolled := s.unpolled - {g});
    if g in s.groups && s.groups[g].outputCount == 0 {
      var t := if s.groups[g].branch.fault.Some? then FailMembers(u, g) else u;
      EraseIsForward(t, g, Polled(s.groups[g], r).0);
    }
  }

  lemma EraseIsForward(s: Sys, g: nat, group: Group)
    requires C.Sound(s.ctl)
    ensures C.Forward(EraseGroup(s, g, group).ctl.history) <==> C.Forward(s.ctl.history)
  {
    var t := EraseGroup(s, g, group);
    if t.ctl != s.ctl { FailureIsForward(s.ctl, t.terminal.value.(state := Failed)); }
  }

  lemma PlannedIsForward(s: Sys, r: AdmitReading)
    requires C.Sound(s.ctl)
    ensures C.Forward(LookAtPlanned(s, r).ctl.history) <==> C.Forward(s.ctl.history)
  {
    if s.prep.Some? && s.prep.value.exchange.stage.Planned? {
      PlannedEffect(s, r);
      var verdict := Admission(s, s.prep.value, r);
      if verdict.Failure? { RejectIsForward(Judging(s, r), s.prep.value.id, verdict.error); }
    }
  }

  lemma CandidateIsPreparing(s: Sys)
    requires Valid(s) && s.prep.Some? && s.prep.value.exchange.stage.Constructed? && !s.prep.value.expired
    ensures s.prep.value.id in s.ctl.table && s.ctl.table[s.prep.value.id].state.Preparing?
  {
  }

  lemma ConstructedIsForward(s: Sys, r: PublishReading)
    requires Valid(s)
    ensures C.Forward(LookAtConstructed(s, r).ctl.history) <==> C.Forward(s.ctl.history)
  {
    assert C.Sound(s.ctl);
    if s.prep.Some? && s.prep.value.exchange.stage.Constructed? {
      hide Reject, Valid, C.Sound, C.Forward, InsertOutput;
      var task := s.prep.value;
      SettleEffect(s, r);
      if task.broken.Some? || task.plan.Failure? {
        RejectIsForward(s, task.id, if task.broken.Some? then task.broken.value else Fault(CANCELLED, Publication));
      } else if Refusal(s, task, r).Some? {
        RejectIsForward(s, task.id, Refusal(s, task, r).value);
      } else if r.ending.OutputNotInserted? {
        RejectIsForward(JoinGroup(s, task, r), task.id, r.ending.fault);
      } else {
        CandidateIsPreparing(s);
        InsertForward(JoinGroup(s, task, r), task, r);
      }
    }
  }

  lemma InsertForward(s: Sys, task: Task, r: PublishReading)
    requires C.Sound(s.ctl) && task.plan.Success? && Target(task) in s.groups
    requires task.id in s.ctl.table && s.ctl.table[task.id].state.Preparing?
    ensures C.Forward(InsertOutput(s, task, r).ctl.history) <==> C.Forward(s.ctl.history)
  {
    hide C.Sound, C.Forward, JoinedGroup, CandidateGraph;
    C.PublishForward(s.ctl, SnapshotOf(task.id, NewOutput(task, r)));
  }

  lemma ExpireIsForward(s: Sys, elapsed: nat)
    requires C.Sound(s.ctl)
    ensures C.Forward(Expire(s, elapsed).ctl.history) <==> C.Forward(s.ctl.history)
  {
    if Expire(s, elapsed) != s {
      FailureIsForward(s.ctl, Snapshot(s.prep.value.id, Failed, Preparation, Some(EXPIRED)));
    }
  }

  /** One step keeps the published states moving forward exactly when it is not a drain accepted for
      an output already published Failed. */
  lemma {:induction false} StepForward(s: Sys, step: Step)
    requires Valid(s)
    ensures C.Forward(Apply(s, step).ctl.history) <==> C.Forward(s.ctl.history) && !Regresses(s, step)
  {
    hide Take, BeginFinish, PollOutput, PollGroup, LookAtPlanned, LookAtConstructed, Expire, Notify, WorkerTurn,
         DrainOutput, Grouped, Drawn, C.Sound, C.Ordered;
    match step
    case TakeStep(r) => TakeForward(s, r);
    case FinishStep => FinishIsForward(s);
    case FinishOutputStep(id, cause, generation, closing) =>
      if id in s.outputs { DrainForward(s, id, generation, closing); }
    case PollOutputStep(id, r) => PollOutputIsForward(s, id, r);
    case PollGroupStep(g, r) => PollGroupIsForward(s, g, r);
    case Planned(r) => PlannedIsForward(s, r);
    case Constructed(r) => ConstructedIsForward(s, r);
    case Budget(elapsed) => ExpireIsForward(s, elapsed);
    case NotifyStep => NotifyIsForward(s);
    case Work(r) => WorkerEffect(s, r);
    case CallAdd => CallIsForward(s.ctl);
    case _ =>
  }

  lemma CallIsForward(c: C.Control)
    requires C.Sound(c)
    ensures C.Forward(C.AddOutput(c).0.history) <==> C.Forward(c.history)
  {
  }

  // No step of the run is such a drain.
  predicate NeverRegresses(s: Sys, steps: seq<Step>)
    decreases |steps|
  {
    steps == [] || (!Regresses(s, steps[0]) && NeverRegresses(Apply(s, steps[0]), steps[1..]))
  }

  /** Over whole runs: the published states only move forward if and only if no drain was accepted
      for an output already published Failed. */
  lemma {:induction false} RunForward(s: Sys, steps: seq<Step>)
    requires Valid(s) && C.Forward(s.ctl.history)
    ensures C.Forward(Run(s, steps).ctl.history) <==> NeverRegresses(s, steps)
    decreases |steps|
  {
    if steps != [] {
      StepForward(s, steps[0]);
      StepKeepsValid(s, steps[0]);
      if Regresses(s, steps[0]) {
        StaysBackward(Apply(s, steps[0]), steps[1..]);
      } else {
        RunForward(Apply(s, steps[0]), steps[1..]);
      }
    }
  }

  lemma {:induction false} StaysBackward(s: Sys, steps: seq<Step>)
    requires Valid(s) && !C.Forward(s.ctl.history)
    ensures !C.Forward(Run(s, steps).ctl.history)
    decreases |steps|
  {
    if steps != [] {
      StepForward(s, steps[0]);
      StepKeepsValid(s, steps[0]);
      StaysBackward(Apply(s, steps[0]), steps[1..]);
    }
  }

  /** The accepted drain is a race: the branch's workers had already recorded a failure, or the
      output was past its deadline and about to be failed. */
  lemma RegressionIsARace(s: Sys, id: nat, closing: Option<Fault>)
    requires Valid(s) && DrainsFailed(s, id, closing)
    ensures s.outputs[id].branch.fault.Some? || (s.outputs[id].state.Waiting?
              && !Before(s.clock, s.outputs[id].deadline))
  {
    assert OutputListed(s, id);
  }

  // A poll of a quiet, waiting output; its workers record a failure just after the branch was polled.
  const LATE_FAILURE: OutputReading :=
    OutputReading(0, 0, 0, 0, false, None, None, B.PollReading(false, 1, None), Some(Fault(9, Runtime)))

  const PLAIN_TAKE: TakeReading := TakeReading(BeginReading(0, 0, 0, {}, None, None), None, None)

  // Nothing has happened to this output yet, and it has time left.
  predicate Untroubled(s: Sys, id: nat) {
    && id in s.outputs && s.unpolled == {} && s.outputs[id].state.Waiting?
    && s.outputs[id].branch.state.Active? && s.outputs[id].branch.fault.None?
    && Before(s.clock, s.outputs[id].deadline) && s.clock - s.outputs[id].startedAt < s.outputs[id].startupWait
  }

  lemma QuietLook(s: Sys, id: nat)
    requires Untroubled(s, id)
    ensures FailOverdue(Promote(s, id, LATE_FAILURE), id, LATE_FAILURE) == s
  {
    assert Promote(s, id, LATE_FAILURE) == s;
  }

  lemma LateFailureLeavesBranchActive(s: Sys, id: nat)
    requires Untroubled(s, id)
    ensures var t := PollOutput(s, id, LATE_FAILURE);
            && t == s.(outputs := t.outputs, ctl := t.ctl, failure := t.failure, told := t.told)
            && id in t.outputs && t.outputs[id].branch.state.Active?
            && t.ctl == C.Publish(s.ctl, Snapshot(id, Failed, Runtime, Some(9)))
  {
    QuietLook(s, id);
    var o := s.outputs[id];
    assert B.Poll(o.branch, LATE_FAILURE.poll) == (o.branch, false);
    var c := s.(outputs := s.outputs[id := o.(branch := o.branch.(fault := Some(Fault(9, Runtime))))]);
    assert PollBranch(s, id, LATE_FAILURE) == (c, false);
    assert Examine(s, id, LATE_FAILURE) == (NoteFailure(c, id), false);
  }

  // The three steps of the race.
  function Race(id: nat): seq<Step> {
    [PollOutputStep(id, LATE_FAILURE), CallRemove(id), TakeStep(PLAIN_TAKE)]
  }

  // An idle session that accepts commands.
  predicate Idle(s: Sys) {
    && s.changing.None? && s.prep.None? && s.terminal.None? && !s.finishing
    && s.ctl.pending.None? && !s.ctl.inProgress && s.ctl.enabled && !s.ctl.start.Stopped?
  }

  lemma RemovalRaces(s: Sys, id: nat, x: Step, y: Step, z: Step)
    requires Idle(s) && Untroubled(s, id) && id in s.ctl.table && Race(id) == [x, y, z]
    ensures Regresses(Apply(Apply(s, x), y), z)
  {
    assert x == Race(id)[0] && y == Race(id)[1] && z == Race(id)[2];
    LateFailureLeavesBranchActive(s, id);
    var a := Apply(s, x);
    assert a == PollOutput(s, id, LATE_FAILURE);
    assert Apply(a, y) == a.(ctl := a.ctl.(pending := Some(Change(id, false))));
  }

  /** The forward order can fail, for any listed output of an idle session: a worker fails between
      the poll of its branch and the check for a failure, the output is removed in the same poll, and
      Draining is published after Failed. */
  lemma StatesCanMoveBackward(s: Sys, id: nat, race: seq<Step>)
    requires Valid(s) && Idle(s) && Untroubled(s, id) && id in s.ctl.table && race == Race(id)
    ensures !C.Forward(Run(s, race).ctl.history)
  {
    var x, y, z := race[0], race[1], race[2];
    assert race == [x, y, z];
    RemovalRaces(s, id, x, y, z);
    ThirdStepRegresses(s, x, y, z);
  }

  lemma ThirdStepRegresses(s: Sys, x: Step, y: Step, z: Step)
    requires Valid(s) && Regresses(Apply(Apply(s, x), y), z)
    ensures !C.Forward(Run(s, [x, y, z]).ctl.history)
  {
    StepKeepsValid(s, x);
    StepKeepsValid(Apply(s, x), y);
    StepForward(Apply(Apply(s, x), y), z);
    RunThree(s, x, y, z);
  }

  lemma RunThree(s: Sys, x: Step, y: Step, z: Step)
    ensures Run(s, [x, y, z]) == Apply(Apply(Apply(s, x), y), z)
  {
    assert [x, y, z][1..] == [y, z] && [y, z][1..] == [z] && [z][1..] == [];
    assert Run(s, [x, y, z]) == Run(Apply(s, x), [y, z]);
    assert Run(Apply(s, x), [y, z]) == Run(Apply(Apply(s, x), y), [z]);
    assert Run(Apply(Apply(s, x), y), [z]) == Run(Apply(Apply(Apply(s, x), y), z), []);
  }

  /** A session that has just started its initial output is one of them. */
  lemma FreshSessionCanMoveBackward()
    ensures !C.Forward(Run(Initial({}, {}, {}, 0, 0, 1, 0, 1, 1), Race(1)).ctl.history)
  {
    InitialIsValid({}, {}, {}, 0, 0, 1, 0, 1, 1);
    StatesCanMoveBackward(Initial({}, {}, {}, 0, 0, 1, 0, 1, 1), 1, Race(1));
  }

  // ---- Deadlines ----

  /** Whatever was published of an output before it was published Running was Preparing or Waiting:
      in no run does Running follow Failed (an expired budget, say), Draining, Retired or Running. */
  lemma RunningComesOnceAndInTime(s: Sys, steps: seq<Step>, a: Snapshot, b: Snapshot)
    requires Valid(s) && C.Before(Run(s, steps).ctl.history, a, b) && a.id == b.id && b.state.Running?
    ensures a.state.Preparing? || a.state.Waiting?
  {
    RunKeepsValid(s, steps);
    C.OrderedPairs(Run(s, steps).ctl.history, a, b);
  }
}
