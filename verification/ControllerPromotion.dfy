/** What a poll makes of an output: ready in time it runs, not ready in time it fails, and the first
    failure is the one it reports. Over whole runs, an output nobody harms runs once it is ready. */
module ControllerPromotion {
  import opened Wrappers
  import opened OutputTypes
  import opened ControllerModel
  import opened ControllerInvariant
  import opened ControllerEffects
  import opened ControllerRuns
  import opened ControllerRelease
  import opened ControllerHolding
  import opened ControllerPoll
  import opened ControllerObserver
  import opened ControllerMoves
  import B = RuntimeBranch
  import C = ControlModel

  // ---- Counting reports ----

  // How often an output was reported in a state.
  function Times(h: C.History, id: nat, state: OutputState): nat {
    match h
    case Start => 0
    case Then(past, e) => Times(past, id, state) + if e.id == id && e.state == state then 1 else 0
  }

  function Mentions(said: seq<Snapshot>, id: nat, state: OutputState): nat
    decreases |said|
  {
    if said == [] then 0
    else (if said[0].id == id && said[0].state == state then 1 else 0) + Mentions(said[1..], id, state)
  }

  lemma {:induction false} TellCounts(h: C.History, said: seq<Snapshot>, id: nat, state: OutputState)
    ensures Times(Tell(h, said), id, state) == Times(h, id, state) + Mentions(said, id, state)
    decreases |said|
  {
    if said != [] { TellCounts(C.Then(h, said[0]), said[1..], id, state); }
  }

  lemma {:induction false} RunsAreTimes(h: C.History, id: nat)
    ensures Runs(h, id) == Times(h, id, Running)
  {
    if h.Then? { RunsAreTimes(h.past, id); }
  }

  // None of these snapshots reports the output in that state.
  ghost predicate Silent(said: seq<Snapshot>, id: nat, state: OutputState) {
    forall i :: 0 <= i < |said| ==> said[i].id != id || said[i].state != state
  }

  lemma {:induction false} SilentMentions(said: seq<Snapshot>, id: nat, state: OutputState)
    requires Silent(said, id, state)
    ensures Mentions(said, id, state) == 0
    decreases |said|
  {
    if said != [] { SilentMentions(said[1..], id, state); }
  }

  lemma StepCounts(s: Sys, step: Step, id: nat, state: OutputState)
    requires Valid(s)
    ensures Times(Apply(s, step).told, id, state) ==
            Times(s.told, id, state) + Mentions(Said(s, step), id, state)
  {
    hide Apply, Valid, Said;
    StepSays(s, step);
    TellCounts(s.told, Said(s, step), id, state);
  }

  // ---- The verdict of one poll ----

  // Nothing fails while the output is looked at.
  predicate Smooth(r: OutputReading) {
    r.during.None? && r.after.None? && r.poll.silence.None?
  }

  function First(faults: seq<Option<Fault>>): Option<Fault>
    decreases |faults|
  {
    if faults == [] then None else if faults[0].Some? then faults[0] else First(faults[1..])
  }

  lemma FirstOfFive(a: Option<Fault>, b: Option<Fault>, c: Option<Fault>, d: Option<Fault>, e: Option<Fault>)
    ensures First([a, b, c, d, e]) ==
            if a.Some? then a else if b.Some? then b else if c.Some? then c else if d.Some? then d else e
  {
    assert [a, b, c, d, e][1..] == [b, c, d, e] && [b, c, d, e][1..] == [c, d, e] && [c, d, e][1..] == [d, e];
    assert [d, e][1..] == [e] && [e][1..] == [];
    assert First([e]) == e;
    assert First([d, e]) == if d.Some? then d else e;
    assert First([c, d, e]) == if c.Some? then c else First([d, e]);
    assert First([b, c, d, e]) == if b.Some? then b else First([c, d, e]);
  }

  predicate Reclaimed(b: B.Branch) {
    b.state.Retiring? || b.state.Gone?
  }

  // The branch made no progress, draining or being reclaimed, for as long as it may.
  function Stalled(b: B.Branch, r: B.PollReading): Option<Fault> {
    if (b.state.Closing? || b.state.Retiring?) && !B.Exited(b, r) then r.silence else None
  }

  lemma PollRecords(b: B.Branch, r: B.PollReading)
    ensures B.Poll(b, r).0.fault == if b.fault.Some? then b.fault else Stalled(b, r)
  {
  }

  /** After a poll the output's branch has its first failure: the one it had, a missed deadline (unless it
      is being reclaimed), what its workers recorded before, a silence, what they recorded after. The
      output is Failed exactly if there is one, and reports it. */
  lemma PollFindsFirst(s: Sys, id: nat, r: OutputReading)
    requires id in s.outputs && (s.outputs[id].state.Failed? ==> s.outputs[id].branch.fault.Some?)
    ensures var o := s.outputs[id];
            var late := Overdue(Started(s, id, r), s.clock, r) && !Reclaimed(o.branch);
            var p := Looked(s, id, r);
            && p.branch.fault == First([o.branch.fault, if late then Some(Fault(NO_MEDIA, Runtime)) else None, r.during,
                                        Stalled(Found(s, id, r), r.poll), r.after])
            && (p.state.Failed? <==> p.branch.fault.Some?)
            && (p.state.Failed? && !o.state.Failed? ==>
                  p.error == Some(p.branch.fault.value.error) && p.stage == p.branch.fault.value.stage)
            && (p.state.Failed? && o.state.Failed? ==> p.error == o.error)
  {
    var o := s.outputs[id];
    var late := Overdue(Started(s, id, r), s.clock, r) && !Reclaimed(o.branch);
    FirstOfFive(o.branch.fault, if late then Some(Fault(NO_MEDIA, Runtime)) else None, r.during,
                Stalled(Found(s, id, r), r.poll), r.after);
    PollRecords(Found(s, id, r), r.poll);
    hide B.Poll, BecomesRunning, Overdue, Stalled, First;
  }

  /** A poll of a waiting, healthy output in which nothing fails has exactly three results: it runs if it is
      ready in time; it fails for want of media if it is late; otherwise it waits. */
  lemma PollVerdict(s: Sys, id: nat, r: OutputReading)
    requires Valid(s) && s.unpolled == {} && id in s.outputs && s.outputs[id].state.Waiting?
    requires s.outputs[id].branch.state.Active? && s.outputs[id].branch.fault.None? && Smooth(r)
    ensures var t := Apply(s, PollOutputStep(id, r));
            && id in t.outputs
            && var p := t.outputs[id];
               if BecomesRunning(s, PollOutputStep(id, r), id) then
                 p.state.Running? && p.stage.Runtime? && p.error.None? == s.outputs[id].error.None?
               else if Overdue(s.outputs[id], s.clock, r) then
                 p.state.Failed? && p.stage.Runtime? && p.error == Some(NO_MEDIA)
               else p.state.Waiting? && p.branch.fault.None?
  {
    hide Apply, Valid;
    StepMoves(s, PollOutputStep(id, r), id);
  }

  lemma ExamineKeepsEntries(s: Sys, id: nat, r: OutputReading)
    requires id in s.outputs
    ensures Examine(s, id, r).0.ctl.table.Keys == s.ctl.table.Keys
  {
    hide B.Poll, B.Fail, Promote, NoteFailure;
    var a := Promote(s, id, r);
    PromoteKeepsEntries(s, id, r);
    var c := PollBranch(FailOverdue(a, id, r), id, r).0;
    assert c.ctl == a.ctl;
    NoteKeepsEntries(c, id);
  }

  lemma PromoteKeepsEntries(s: Sys, id: nat, r: OutputReading)
    requires id in s.outputs
    ensures id in Promote(s, id, r).outputs && Promote(s, id, r).ctl.table.Keys == s.ctl.table.Keys
  {
  }

  lemma NoteKeepsEntries(s: Sys, id: nat)
    requires id in s.outputs
    ensures NoteFailure(s, id).ctl.table.Keys == s.ctl.table.Keys
  {
  }

  lemma PollKeepsEntries(s: Sys, id: nat, r: OutputReading)
    requires id in s.outputs && id in PollOutput(s, id, r).outputs
    ensures id in s.ctl.table ==> id in PollOutput(s, id, r).ctl.table
  {
    hide Examine, Retire;
    ExamineKeepsEntries(s, id, r);
    if s.unpolled == {} {
      ExamineIsQuiet(s, id, r);
      RetireEffect(Examine(s, id, r).0, id);
    }
  }

  lemma PollFreesSlot(s: Sys, id: nat, r: OutputReading)
    requires s.unpolled == {} && BecomesRunning(s, PollOutputStep(id, r), id) && s.changing == Some(id)
    ensures PollOutput(s, id, r).changing.None?
  {
    assert id in s.outputs;
    hide Examine, Retire, BecomesRunning;
    ExamineSays(s, id, r);
    ExamineIsQuiet(s, id, r);
    RetireLeavesSlot(Examine(s, id, r).0, id);
  }

  // A listed output that runs is listed Running.
  lemma RunningIsListed(s: Sys, id: nat)
    requires Valid(s) && id in s.outputs && s.outputs[id].state.Running?
    ensures id in s.ctl.table ==> s.ctl.table[id].state.Running?
    ensures !s.finishing ==> id in s.ctl.table
  {
    assert OutputListed(s, id);
  }

  lemma OutputReports(s: Sys, id: nat, r: OutputReading)
    requires id in s.outputs
    ensures Mentions(SaidOfOutput(s, id, r), id, Running) ==
            if BecomesRunning(s, PollOutputStep(id, r), id) then 1 else 0
  {
    hide Looked, Retires, Defers, BecomesRunning;
    var up := SnapshotOf(id, Promoted(s.outputs[id]));
    var rest := (if Looked(s, id, r).state.Failed? && !s.outputs[id].state.Failed?
                 then [SnapshotOf(id, Looked(s, id, r))] else [])
                + if Retires(s, id, r) && !Defers(s, id, r)
                  then [SnapshotOf(id, Looked(s, id, r).(state := Retired))] else [];
    SilentMentions(rest, id, Running);
    if BecomesRunning(s, PollOutputStep(id, r), id) {
      assert SaidOfOutput(s, id, r) == [up] + rest && ([up] + rest)[1..] == rest;
    } else {
      assert SaidOfOutput(s, id, r) == rest;
    }
  }

  /** The converse of OnlyReadyOutputsRun: a ready output is reported Running, once; its slot is free; and
      unless something fails in the same iteration it runs, and is listed so. */
  lemma ReadyOutputRuns(s: Sys, id: nat, r: OutputReading)
    requires Valid(s) && s.unpolled == {} && BecomesRunning(s, PollOutputStep(id, r), id)
    ensures var t := Apply(s, PollOutputStep(id, r));
            && Runs(t.told, id) == Runs(s.told, id) + 1
            && (s.changing == Some(id) ==> t.changing.None? && !t.ctl.inProgress)
            && (Smooth(r) && id in t.outputs ==>
                  && t.outputs[id].state.Running? && t.outputs[id].branch.fault.None?
                  && (id in s.ctl.table ==> id in t.ctl.table && t.ctl.table[id].state.Running?))
            && (s.outputs[id].branch.state.Active? ==> id in t.outputs)
  {
    hide Apply, Valid, BecomesRunning;
    ReadyIsReported(s, id, r);
    ReadyStays(s, id, r);
    if s.changing == Some(id) { ReadyFreesSlot(s, id, r); }
    if Smooth(r) && id in Apply(s, PollOutputStep(id, r)).outputs { ReadyIsListed(s, id, r); }
  }

  lemma ReadyIsReported(s: Sys, id: nat, r: OutputReading)
    requires Valid(s) && s.unpolled == {} && BecomesRunning(s, PollOutputStep(id, r), id)
    ensures Runs(Apply(s, PollOutputStep(id, r)).told, id) == Runs(s.told, id) + 1
  {
    ReadyIsThere(s, id, r);
    hide Apply, Valid, BecomesRunning, SaidOfOutput, Said, Times, Runs;
    RunsAreTimes(s.told, id);
    RunsAreTimes(Apply(s, PollOutputStep(id, r)).told, id);
    StepCounts(s, PollOutputStep(id, r), id, Running);
    PollSaysOfOutput(s, id, r);
    OutputReports(s, id, r);
  }

  lemma ReadyIsThere(s: Sys, id: nat, r: OutputReading)
    requires BecomesRunning(s, PollOutputStep(id, r), id)
    ensures id in s.outputs
  {
  }

  lemma PollSaysOfOutput(s: Sys, id: nat, r: OutputReading)
    requires id in s.outputs && s.unpolled == {}
    ensures Said(s, PollOutputStep(id, r)) == SaidOfOutput(s, id, r)
  {
  }

  lemma ReadyFreesSlot(s: Sys, id: nat, r: OutputReading)
    requires Valid(s) && s.unpolled == {} && BecomesRunning(s, PollOutputStep(id, r), id) && s.changing == Some(id)
    ensures var t := Apply(s, PollOutputStep(id, r)); t.changing.None? && !t.ctl.inProgress
  {
    hide Apply, Valid, BecomesRunning, PollOutput;
    StepKeepsValid(s, PollOutputStep(id, r));
    PollIsStep(s, id, r);
    PollFreesSlot(s, id, r);
    FreeSlot(Apply(s, PollOutputStep(id, r)));
  }

  lemma ReadyStays(s: Sys, id: nat, r: OutputReading)
    requires Valid(s) && BecomesRunning(s, PollOutputStep(id, r), id)
    ensures id in s.outputs
    ensures s.outputs[id].branch.state.Active? ==> id in Apply(s, PollOutputStep(id, r)).outputs
  {
    assert id in s.outputs;
    hide Apply, Valid, BecomesRunning, Retires;
    StepMoves(s, PollOutputStep(id, r), id);
    if s.outputs[id].branch.state.Active? { ActiveStays(s, id, r); }
  }

  lemma ReadyIsListed(s: Sys, id: nat, r: OutputReading)
    requires Valid(s) && s.unpolled == {} && id in s.outputs && Smooth(r)
    requires BecomesRunning(s, PollOutputStep(id, r), id) && id in Apply(s, PollOutputStep(id, r)).outputs
    ensures var t := Apply(s, PollOutputStep(id, r));
            && t.outputs[id].state.Running? && t.outputs[id].branch.fault.None?
            && (id in s.ctl.table ==> id in t.ctl.table && t.ctl.table[id].state.Running?)
  {
    hide Apply, Valid, BecomesRunning, Looked, PollOutput;
    SmoothRuns(s, id, r);
    StepMoves(s, PollOutputStep(id, r), id);
    StepKeepsValid(s, PollOutputStep(id, r));
    PollIsStep(s, id, r);
    PollKeepsEntries(s, id, r);
    RunningIsListed(Apply(s, PollOutputStep(id, r)), id);
  }

  lemma PollIsStep(s: Sys, id: nat, r: OutputReading)
    ensures Apply(s, PollOutputStep(id, r)) == PollOutput(s, id, r)
  {
  }

  lemma FreeSlot(s: Sys)
    requires Valid(s) && s.changing.None?
    ensures !s.ctl.inProgress
  {
  }

  lemma SmoothRuns(s: Sys, id: nat, r: OutputReading)
    requires BecomesRunning(s, PollOutputStep(id, r), id) && Smooth(r)
    ensures Looked(s, id, r).state.Running? && Looked(s, id, r).branch.fault.None?
  {
  }

  lemma ActiveStays(s: Sys, id: nat, r: OutputReading)
    requires id in s.outputs && s.outputs[id].branch.state.Active?
    ensures !Retires(s, id, r)
  {
  }

  // ---- An output nobody harms, over whole runs ----

  // Waiting or running, with nothing wrong and nobody about to remove it.
  ghost predicate Well(s: Sys, id: nat) {
    && s.ctl.pending != Some(Change(id, false))
    && id in s.outputs
    && var o := s.outputs[id];
       && (o.state.Waiting? || o.state.Running?) && o.branch.state.Active? && o.branch.fault.None?
       && o.groupId in s.groups && s.groups[o.groupId].branch.fault.None?
  }

  // The step does not fail, remove or stop output id of group g.
  predicate Spares(step: Step, id: nat, g: nat) {
    match step
    case OutputFails(i, _) => i != id
    case GroupFails(h, _, _) => h != g
    case CallRemove(i) => i != id
    case FinishOutputStep(i, _, _, _) => i != id
    case PollOutputStep(i, r) => i == id ==> Smooth(r) && !r.poll.early
    case _ => true
  }

  // By this time a waiting output is not late.
  predicate InTime(o: Output, clock: nat) {
    o.state.Waiting? ==> Before(clock, o.deadline) && clock < o.startedAt + o.startupWait
  }

  // What was agreed on when the output was published.
  predicate SameTerms(o: Output, p: Output) {
    && p.groupId == o.groupId && p.deadline == o.deadline && p.startedAt == o.startedAt
    && p.startupWait == o.startupWait && p.generation == o.generation && p.lease == o.lease
  }

  // No removal of id is pending that was not pending before.
  lemma PendingMoves(s: Sys, step: Step, id: nat)
    requires Valid(s) && s.ctl.pending != Some(Change(id, false)) && step != CallRemove(id)
    ensures Apply(s, step).ctl.pending != Some(Change(id, false))
  {
    hide Valid, Take, LookAtPlanned, LookAtConstructed, PollGroup, PollOutput, BeginFinish, FinishOutput, Notify,
         Expire, WorkerTurn;
    match step
    case TakeStep(r) => TakePending(s, r);
    case Planned(r) => PlannedWaits(s, r);
    case Constructed(r) => ConstructedPending(s, r);
    case PollGroupStep(g, r) => PollGroupWaits(s, g, r);
    case PollOutputStep(i, r) => PollOutputPending(s, i, r);
    case FinishStep => FinishWaits(s);
    case FinishOutputStep(i, cause, generation, closing) => FinishOutputWaits(s, i, cause, generation, closing);
    case NotifyStep => NotifyWaits(s);
    case Budget(elapsed) => ExpireWaits(s, elapsed);
    case Work(r) => WorkerEffect(s, r);
    case _ =>
  }

  lemma TakePending(s: Sys, r: TakeReading)
    ensures Take(s, r).ctl.pending == s.ctl.pending || Take(s, r).ctl.pending.None?
  {
    if CanTake(s) {
      var change := C.TakeChange(s.ctl).1.value;
      var t := Taken(s);
      hide Reject, BeginPreparation, Notify, DrainOutput;
      if change.addition {
        BeginWaits(t, change.id, r.begin);
        NotifyWaits(BeginPreparation(t, change.id, r.begin));
      } else if change.id !in s.outputs {
        RejectWaits(t, change.id, Fault(NO_BRANCH, Drain));
        NotifyWaits(Reject(t, change.id, Fault(NO_BRANCH, Drain)));
      } else {
        DrainWaits(t, change.id, r.generation, r.closing);
      }
    }
  }

  lemma ConstructedPending(s: Sys, r: PublishReading)
    ensures LookAtConstructed(s, r).ctl.pending == s.ctl.pending
  {
    hide Settle;
    if s.prep.Some? { SettleOutputs(s, r); }
  }

  lemma PollOutputPending(s: Sys, id: nat, r: OutputReading)
    ensures PollOutput(s, id, r).ctl.pending == s.ctl.pending || PollOutput(s, id, r).ctl.pending.None?
  {
    if id in s.outputs && s.unpolled == {} {
      hide Promote, FailOverdue, PollBranch, NoteFailure, Retire;
      var a := Promote(s, id, r);
      PromotePending(s, id, r);
      LookWaits(a, id, r);
      RetireWaits(Examine(s, id, r).0, id);
    }
  }

  lemma PromotePending(s: Sys, id: nat, r: OutputReading)
    requires id in s.outputs
    ensures Promote(s, id, r).ctl.pending == s.ctl.pending && id in Promote(s, id, r).outputs
  {
    hide Promote;
    PromoteShape(s, id, r);
    PromoteIsQuiet(s, id, r);
  }

  lemma PollClock(s: Sys, id: nat, r: OutputReading)
    requires id in s.outputs && s.unpolled == {}
    ensures Apply(s, PollOutputStep(id, r)).clock == s.clock + r.first + r.second + r.third + r.fourth
  {
    hide Examine, Retire;
    ExamineLooks(s, id, r);
    RetireEffect(Examine(s, id, r).0, id);
  }

  // A harmless poll in time leaves the output well.
  lemma LookedWell(s: Sys, id: nat, r: OutputReading)
    requires Well(s, id) && Smooth(r) && !r.poll.early
    requires InTime(s.outputs[id], s.clock + r.first + r.second + r.third + r.fourth)
    ensures var o, p := s.outputs[id], Looked(s, id, r);
            && SameTerms(o, p) && p.branch.state.Active? && p.branch.fault.None?
            && p.state == (if BecomesRunning(s, PollOutputStep(id, r), id) then Running else o.state)
            && !Retires(s, id, r)
  {
  }

  lemma MovedWell(s: Sys, step: Step, id: nat)
    requires Valid(s) && Well(s, id) && Spares(step, id, s.outputs[id].groupId)
    requires InTime(s.outputs[id], Apply(s, step).clock)
    ensures var o, p := s.outputs[id], Moved(s, step, id);
            && SameTerms(o, p) && p.branch.state.Active? && p.branch.fault.None?
            && p.state == (if s.unpolled == {} && BecomesRunning(s, step, id) then Running else o.state)
            && !Goes(s, step, id)
  {
    hide Valid, Apply, Looked, Retires;
    if step.PollOutputStep? && step.id == id && s.unpolled == {} {
      PollClock(s, id, step.outputReading);
      LookedWell(s, id, step.outputReading);
    }
  }

  lemma StepKeepsGroupWell(s: Sys, step: Step, id: nat)
    requires Valid(s) && Well(s, id) && Spares(step, id, s.outputs[id].groupId)
    ensures var g := s.outputs[id].groupId;
            g in Apply(s, step).groups && Apply(s, step).groups[g].branch.fault.None?
  {
    var g := s.outputs[id].groupId;
    MemberCounts(s, id);
    hide Valid, Apply, Polled;
    StepMovesGroup(s, step, g);
  }

  lemma MemberCounts(s: Sys, id: nat)
    requires Valid(s) && id in s.outputs
    ensures s.outputs[id].groupId in s.groups && s.groups[s.outputs[id].groupId].outputCount > 0
  {
    var g := s.outputs[id].groupId;
    assert id in Members(s.outputs, g);
  }

  // What is pending, prepared or about to be notified concerns another output, or keeps its deadline.
  ghost predicate NotMeant(s: Sys, id: nat)
    requires id in s.outputs
  {
    && (s.ctl.pending.Some? ==> s.ctl.pending.value.id != id)
    && (s.prep.Some? && (s.prep.value.exchange.stage.Planned? || s.prep.value.exchange.stage.Constructed?) ==>
          s.prep.value.id != id)
    && (s.prep.Some? && s.prep.value.id == id ==>
          s.outputs[id].deadline == Some(s.prep.value.deadline) && !s.outputs[id].state.Running?)
    && (s.terminal.Some? ==> s.terminal.value.id != id && s.terminal.value.state.Retired?)
  }

  lemma OthersAreMeant(s: Sys, id: nat)
    requires Valid(s) && id in s.outputs && s.ctl.pending != Some(Change(id, false))
    ensures NotMeant(s, id)
  {
    if s.prep.Some? { assert TaskListed(s, s.prep.value); }
  }

  // Nobody says of a healthy output that it failed.
  lemma NoFailureIsSaid(s: Sys, step: Step, id: nat)
    requires Valid(s) && Well(s, id) && Spares(step, id, s.outputs[id].groupId)
    requires InTime(s.outputs[id], Apply(s, step).clock)
    ensures Silent(Said(s, step), id, Failed)
  {
    hide Valid, Apply, Said, Well, NotMeant;
    WellIsThere(s, id);
    OthersAreMeant(s, id);
    match step
    case PollOutputStep(_, _) => PollSaysNoFailure(s, step, id);
    case Budget(_) => BudgetSaysNoFailure(s, step, id);
    case _ => OthersSayNoFailure(s, step, id);
  }

  lemma WellIsThere(s: Sys, id: nat)
    requires Well(s, id)
    ensures id in s.outputs && s.ctl.pending != Some(Change(id, false))
  {
  }

  lemma PollSaysNoFailure(s: Sys, step: Step, id: nat)
    requires step.PollOutputStep? && Well(s, id) && Spares(step, id, s.outputs[id].groupId)
    requires InTime(s.outputs[id], Apply(s, step).clock)
    ensures Silent(Said(s, step), id, Failed)
  {
    hide Apply, Looked, Retires, Defers;
    if step.id == id && s.unpolled == {} {
      PollClock(s, id, step.outputReading);
      LookedWell(s, id, step.outputReading);
    }
  }

  lemma BudgetSaysNoFailure(s: Sys, step: Step, id: nat)
    requires step.Budget? && Well(s, id) && NotMeant(s, id) && InTime(s.outputs[id], Apply(s, step).clock)
    ensures Silent(Said(s, step), id, Failed)
  {
  }

  lemma OthersSayNoFailure(s: Sys, step: Step, id: nat)
    requires !step.PollOutputStep? && !step.Budget? && id in s.outputs && NotMeant(s, id)
    ensures Silent(Said(s, step), id, Failed)
  {
    hide Admission, Refusal, Polled;
  }

  lemma RunningIsSaid(s: Sys, step: Step, id: nat)
    requires Valid(s) && id in s.outputs
    ensures Mentions(Said(s, step), id, Running) == if s.unpolled == {} && BecomesRunning(s, step, id) then 1 else 0
  {
    if step.PollOutputStep? && step.id == id && s.unpolled == {} {
      hide Valid, Said, SaidOfOutput, BecomesRunning;
      PollSaysOfOutput(s, id, step.outputReading);
      OutputReports(s, id, step.outputReading);
    } else {
      hide Valid, Said;
      SaidOfOthers(s, step, id);
      SilentMentions(Said(s, step), id, Running);
    }
  }

  lemma SaidOfOthers(s: Sys, step: Step, id: nat)
    requires Valid(s) && !(step.PollOutputStep? && step.id == id && s.unpolled == {})
    ensures Silent(Said(s, step), id, Running)
  {
    hide Valid, Said;
    NoticeIsOfRetirement(s);
    forall i | 0 <= i < |Said(s, step)| ensures Said(s, step)[i].id != id || !Said(s, step)[i].state.Running? {
      SaidConcerns(s, step, i);
      if step.PollOutputStep? { PollSaysOfItself(s, step, i); }
    }
  }

  lemma NoticeIsOfRetirement(s: Sys)
    requires Valid(s)
    ensures s.terminal.Some? ==> s.terminal.value.state.Retired?
  {
  }

  lemma PollSaysOfItself(s: Sys, step: Step, i: nat)
    requires step.PollOutputStep? && i < |Said(s, step)|
    ensures step.id in s.outputs && s.unpolled == {} && Said(s, step)[i].id == step.id
  {
    hide SaidOfOutput;
    OutputConcerns(s, step.id, step.outputReading, i);
  }

  // p is o after some steps: the same terms; it may have been promoted, and was reported so once.
  ghost predicate Thrives(s: Sys, t: Sys, id: nat)
    requires id in s.outputs
  {
    && Well(t, id) && SameTerms(s.outputs[id], t.outputs[id])
    && (s.outputs[id].state.Running? ==> t.outputs[id].state.Running?)
    && Runs(t.told, id) == Runs(s.told, id) + (if s.outputs[id].state == t.outputs[id].state then 0 else 1)
    && Times(t.told, id, Failed) == Times(s.told, id, Failed)
  }

  lemma StepThrives(s: Sys, step: Step, id: nat)
    requires Valid(s) && Well(s, id) && Spares(step, id, s.outputs[id].groupId)
    requires InTime(s.outputs[id], Apply(s, step).clock)
    ensures Thrives(s, Apply(s, step), id)
    ensures s.outputs[id].state.Waiting? ==>
              (Apply(s, step).outputs[id].state.Running? <==> s.unpolled == {} && BecomesRunning(s, step, id))
  {
    hide Apply, Valid, Said, Moved, Spares;
    var t := Apply(s, step);
    MovedWell(s, step, id);
    StepMoves(s, step, id);
    StepKeepsGroupWell(s, step, id);
    SparedIsNotRemoved(step, id, s.outputs[id].groupId);
    PendingMoves(s, step, id);
    NoFailureIsSaid(s, step, id);
    SilentMentions(Said(s, step), id, Failed);
    StepCounts(s, step, id, Failed);
    StepCounts(s, step, id, Running);
    RunningIsSaid(s, step, id);
    RunsAreTimes(s.told, id);
    RunsAreTimes(t.told, id);
    ReadyWaits(s, step, id);
    hide BecomesRunning, Goes;
  }

  lemma SparedIsNotRemoved(step: Step, id: nat, g: nat)
    requires Spares(step, id, g)
    ensures step != CallRemove(id)
  {
  }

  lemma ReadyWaits(s: Sys, step: Step, id: nat)
    requires id in s.outputs
    ensures BecomesRunning(s, step, id) ==> s.outputs[id].state.Waiting?
  {
  }

  lemma {:induction false} RunClock(s: Sys, steps: seq<Step>)
    ensures s.clock <= Run(s, steps).clock
    decreases |steps|
  {
    if steps != [] {
      ClockGoesOn(s, steps[0]);
      RunClock(Apply(s, steps[0]), steps[1..]);
    }
  }

  ghost predicate SparedBy(steps: seq<Step>, id: nat, g: nat) {
    forall step :: step in steps ==> Spares(step, id, g)
  }

  lemma EarlierIsInTime(o: Output, p: Output, clock: nat, later: nat)
    requires InTime(o, later) && clock <= later && SameTerms(o, p) && (o.state.Waiting? || p.state == o.state)
    ensures InTime(o, clock) && InTime(p, later)
  {
  }

  lemma {:induction false} RunThrives(s: Sys, steps: seq<Step>, id: nat)
    requires Valid(s) && Well(s, id) && SparedBy(steps, id, s.outputs[id].groupId)
    requires InTime(s.outputs[id], Run(s, steps).clock)
    ensures Thrives(s, Run(s, steps), id)
    decreases |steps|
  {
    hide Apply, Valid, Spares;
    if steps != [] {
      var t := Apply(s, steps[0]);
      RunClock(t, steps[1..]);
      assert steps[0] in steps;
      EarlierIsInTime(s.outputs[id], s.outputs[id], t.clock, Run(s, steps).clock);
      StepThrives(s, steps[0], id);
      StepKeepsValid(s, steps[0]);
      EarlierIsInTime(s.outputs[id], t.outputs[id], t.clock, Run(s, steps).clock);
      RunThrives(t, steps[1..], id);
    }
  }

  // The reading shows media of this generation under an active authority.
  predicate ShowsMedia(r: OutputReading, generation: nat) {
    r.active && r.evidence == Some(generation)
  }

  /** Over whole runs: a waiting output that nobody fails, removes or stops, and that is looked at in time
      with ready evidence and no preparation outstanding, runs: it is reported Running exactly once and never
      Failed, and listed Running. */
  lemma HealthyOutputRuns(s: Sys, before: seq<Step>, r: OutputReading, after: seq<Step>, id: nat)
    requires Valid(s) && Well(s, id) && s.outputs[id].state.Waiting?
    requires SparedBy(before + [PollOutputStep(id, r)] + after, id, s.outputs[id].groupId)
    requires InTime(s.outputs[id], Run(s, before + [PollOutputStep(id, r)] + after).clock)
    requires Run(s, before).prep.None? && Run(s, before).unpolled == {} && ShowsMedia(r, s.outputs[id].generation)
    ensures var t := Run(s, before + [PollOutputStep(id, r)] + after);
            && Thrives(s, t, id) && t.outputs[id].state.Running?
            && (id in t.ctl.table ==> t.ctl.table[id].state.Running?) && (!t.finishing ==> id in t.ctl.table)
  {
    hide Apply, Run, Valid, Spares, Thrives;
    var step := PollOutputStep(id, r);
    var all := before + [step] + after;
    var here := Run(s, before);
    RunThen(s, before, [], step);
    assert before + [] + [step] == before + [step];
    RunNothing(here);
    var there := Apply(here, step);
    RunAppend(s, before + [step], after);
    RunAppend(s, before, [step]);
    RunClock(there, after);
    ClockGoesOn(here, step);
    assert forall x :: x in before ==> x in all;
    assert step in all;
    assert forall x :: x in after ==> x in all;
    EarlierIsInTime(s.outputs[id], s.outputs[id], here.clock, Run(s, all).clock);
    RunThrives(s, before, id);
    RunKeepsValid(s, before);
    PromotedBy(s, here, step, id, Run(s, all).clock);
    StepKeepsValid(here, step);
    ThrivesIsWell(s, there, id);
    RunThrives(there, after, id);
    ThrivesTwice(s, there, Run(s, all), id);
    RunKeepsValid(there, after);
    RunningIsListed(Run(s, all), id);
  }

  lemma ThrivesIsWell(s: Sys, t: Sys, id: nat)
    requires id in s.outputs && Thrives(s, t, id)
    ensures Well(t, id) && t.outputs[id].groupId == s.outputs[id].groupId
  {
  }

  lemma ThrivesTwice(s: Sys, t: Sys, u: Sys, id: nat)
    requires id in s.outputs && id in t.outputs && Thrives(s, t, id) && Thrives(t, u, id)
    requires s.outputs[id].state.Waiting? && t.outputs[id].state.Running?
    ensures Thrives(s, u, id) && id in u.outputs && u.outputs[id].state.Running?
  {
  }

  lemma PromotedBy(s: Sys, here: Sys, step: Step, id: nat, clock: nat)
    requires id in s.outputs && s.outputs[id].state.Waiting? && Valid(here) && Thrives(s, here, id)
    requires here.prep.None? && here.unpolled == {} && InTime(s.outputs[id], clock) && Apply(here, step).clock <= clock
    requires step.PollOutputStep? && step.id == id && Spares(step, id, s.outputs[id].groupId)
    requires ShowsMedia(step.outputReading, s.outputs[id].generation)
    ensures var t := Apply(here, step);
            Thrives(s, t, id) && t.outputs[id].state.Running? && InTime(t.outputs[id], clock)
  {
    hide Apply, Valid, BecomesRunning, SameTerms, Well;
    ThrivesTerms(s, here, id);
    PollClock(here, id, step.outputReading);
    EarlierIsInTime(s.outputs[id], here.outputs[id], Apply(here, step).clock, clock);
    EarlierIsInTime(here.outputs[id], here.outputs[id], Apply(here, step).clock, clock);
    StepThrives(here, step, id);
    if here.outputs[id].state.Waiting? { ReadyInTime(here, step, id); }
    ThrivesTerms(here, Apply(here, step), id);
    ThrivesTogether(s, here, Apply(here, step), id);
  }

  lemma ThrivesTerms(s: Sys, t: Sys, id: nat)
    requires id in s.outputs && Thrives(s, t, id)
    ensures Well(t, id) && id in t.outputs && SameTerms(s.outputs[id], t.outputs[id])
    ensures t.outputs[id].state.Waiting? || t.outputs[id].state.Running?
    ensures t.outputs[id].generation == s.outputs[id].generation && t.outputs[id].groupId == s.outputs[id].groupId
  {
  }

  lemma ThrivesTogether(s: Sys, t: Sys, u: Sys, id: nat)
    requires id in s.outputs && id in t.outputs && Thrives(s, t, id) && Thrives(t, u, id)
    requires s.outputs[id].state.Waiting?
    ensures Thrives(s, u, id)
  {
  }

  lemma ReadyInTime(s: Sys, step: Step, id: nat)
    requires Well(s, id) && s.outputs[id].state.Waiting? && s.prep.None? && step.PollOutputStep? && step.id == id
    requires ShowsMedia(step.outputReading, s.outputs[id].generation)
    requires var r := step.outputReading; InTime(s.outputs[id], s.clock + r.first + r.second + r.third + r.fourth)
    ensures BecomesRunning(s, step, id)
  {
  }

  // ---- One call of poll() ----

  lemma {:induction false} NoPrepComes(s: Sys, steps: seq<Step>)
    requires Valid(s) && s.prep.None? && forall step :: step in steps ==> !step.TakeStep?
    ensures Run(s, steps).prep.None?
    decreases |steps|
  {
    hide Apply, Valid;
    if steps != [] {
      assert steps[0] in steps;
      NoPrepBegins(s, steps[0]);
      StepKeepsValid(s, steps[0]);
      NoPrepComes(Apply(s, steps[0]), steps[1..]);
    }
  }

  lemma NoPrepBegins(s: Sys, step: Step)
    requires s.prep.None? && !step.TakeStep?
    ensures Apply(s, step).prep.None?
  {
    hide LookAtPlanned, LookAtConstructed, PollGroup, Examine, Retire, BeginFinish, FinishOutput, Notify, Expire;
    match step
    case PollGroupStep(g, r) => PollGroupEffect(s, g, r);
    case PollOutputStep(id, r) =>
      if id in s.outputs && s.unpolled == {} {
        ExamineIsQuiet(s, id, r);
        RetireEffect(Examine(s, id, r).0, id);
      }
    case FinishStep => FinishIsQuiet(s);
    case FinishOutputStep(id, cause, generation, closing) => FinishOutputIsQuiet(s, id, cause, generation, closing);
    case NotifyStep => NotifyIsQuiet(s);
    case Budget(elapsed) => ExpireIsQuiet(s, elapsed);
    case Planned(r) => PlannedIsQuiet(s, r);
    case Constructed(r) => NothingConstructed(s, r);
    case _ =>
  }

  lemma NothingConstructed(s: Sys, r: PublishReading)
    requires s.prep.None?
    ensures LookAtConstructed(s, r) == s
  {
  }

  lemma {:induction false} StayPolled(s: Sys, steps: seq<Step>)
    requires s.unpolled == {} && forall step :: step in steps ==> !step.Constructed?
    ensures Run(s, steps).unpolled == {}
    decreases |steps|
  {
    hide Apply;
    if steps != [] {
      assert steps[0] in steps;
      StaysPolled(s, steps[0]);
      StayPolled(Apply(s, steps[0]), steps[1..]);
    }
  }

  // The steps up to the poll of one output, and the steps after it.
  lemma {:induction false} OutputStepsSplit(env: Surroundings, n: nat, id: nat) returns (rest: seq<Step>)
    requires id < n
    ensures OutputSteps(env, n) ==
            OutputSteps(env, id) + env.others(6, id) + [PollOutputStep(id, env.outputs(id))] + rest
  {
    if n == id + 1 {
      rest := [];
    } else {
      var less := OutputStepsSplit(env, n - 1, id);
      rest := less + env.others(6, n - 1) + [PollOutputStep(n - 1, env.outputs(n - 1))];
    }
  }

  lemma {:induction false} OutputStepsAre(env: Surroundings, n: nat)
    requires Proper(env)
    ensures forall step :: step in OutputSteps(env, n) ==> !step.Constructed? && !step.TakeStep?
  {
    if n > 0 {
      assert ForeignOnly(env.others(6, n - 1));
      OutputStepsAre(env, n - 1);
    }
  }

  lemma {:induction false} GroupStepsAre(env: Surroundings, again: bool, n: nat)
    requires Proper(env)
    ensures forall step :: step in GroupSteps(env, again, n) ==> !step.TakeStep?
  {
    if n > 0 {
      assert ForeignOnly(GroupOthers(env, again, n - 1));
      GroupStepsAre(env, again, n - 1);
    }
  }

  lemma OpeningTakesNothing(s: Sys, env: Surroundings)
    requires Proper(env)
    ensures forall step :: step in Opening(s, env) ==> !step.TakeStep?
  {
    hide Run;
    GroupStepsAre(env, false, Run(s, PreparationSteps(env)).nextGroup);
    assert ForeignOnly(env.others(0, 0)) && ForeignOnly(env.others(1, 0)) && ForeignOnly(env.others(2, 0));
    assert ForeignOnly(env.others(3, 0)) && ForeignOnly(env.others(5, 0));
  }

  /** One call of poll() is enough: with no preparation outstanding, a healthy waiting output whose media is
      seen in time runs when the call returns. */
  lemma ReadyPollRuns(s: Sys, env: Surroundings, id: nat)
    requires Valid(s) && Proper(env) && s.prep.None? && Well(s, id) && s.outputs[id].state.Waiting?
    requires SparedBy(PollTrace(s, env), id, s.outputs[id].groupId)
    requires InTime(s.outputs[id], Run(s, PollTrace(s, env)).clock)
    requires ShowsMedia(env.outputs(id), s.outputs[id].generation)
    ensures var t := Run(s, PollTrace(s, env));
            && Thrives(s, t, id) && t.outputs[id].state.Running?
            && (id in t.ctl.table ==> t.ctl.table[id].state.Running?) && (!t.finishing ==> id in t.ctl.table)
  {
    var opening := Opening(s, env);
    var a := Run(s, opening);
    hide Apply, Run, Valid, Spares, Thrives, Well, Opening, Conclusion, OutputSteps;
    OpeningTakesNothing(s, env);
    OutputsComeAfterGroups(s, env);
    NoPrepComes(s, opening);
    RunKeepsValid(s, opening);
    WellIsThere(s, id);
    OutputNumbered(s, opening, id);
    var n := a.ctl.nextId;
    var rest := OutputStepsSplit(env, n, id);
    OutputStepsAre(env, id);
    assert ForeignOnly(env.others(6, id));
    var lead := OutputSteps(env, id) + env.others(6, id);
    NoPrepComes(a, lead);
    StayPolled(a, lead);
    RunAppend(s, opening, lead);
    var step := PollOutputStep(id, env.outputs(id));
    var tail := rest + Conclusion(Run(a, OutputSteps(env, n)), env);
    assert PollTrace(s, env) == opening + lead + [step] + tail;
    HealthyOutputRuns(s, opening + lead, env.outputs(id), tail, id);
  }

  lemma {:induction false} IdsOnlyGrow(s: Sys, steps: seq<Step>)
    requires Valid(s)
    ensures s.ctl.nextId <= Run(s, steps).ctl.nextId
    decreases |steps|
  {
    hide Apply, Valid;
    if steps != [] {
      StepIdsGrow(s, steps[0]);
      StepKeepsValid(s, steps[0]);
      IdsOnlyGrow(Apply(s, steps[0]), steps[1..]);
    }
  }

  lemma StepIdsGrow(s: Sys, step: Step)
    requires Valid(s)
    ensures s.ctl.nextId <= Apply(s, step).ctl.nextId
  {
    ValidIsNumbered(s);
    hide Valid;
    if Controls(step) {
      hide Apply;
      ControlComes(s, step);
    } else {
      OthersIds(s, step);
    }
  }

  lemma OthersIds(s: Sys, step: Step)
    requires !Controls(step)
    ensures s.ctl.nextId <= Apply(s, step).ctl.nextId
  {
    match step
    case PollOutputStep(id, r) => PollOutputIds(s, id, r);
    case Work(r) => WorkerEffect(s, r);
    case _ =>
  }

  lemma PollOutputIds(s: Sys, id: nat, r: OutputReading)
    ensures PollOutput(s, id, r).ctl.nextId == s.ctl.nextId
  {
    if id in s.outputs && s.unpolled == {} {
      hide Promote, FailOverdue, PollBranch, NoteFailure, Retire;
      PromoteKeepsIds(s, id, r);
      PromoteIsQuiet(s, id, r);
      LookWaits(Promote(s, id, r), id, r);
      RetireWaits(Examine(s, id, r).0, id);
    }
  }

  lemma OutputNumbered(s: Sys, steps: seq<Step>, id: nat)
    requires Valid(s) && id in s.outputs
    ensures id < Run(s, steps).ctl.nextId
  {
    assert OutputListed(s, id);
    IdsOnlyGrow(s, steps);
  }
}
