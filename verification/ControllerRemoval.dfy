/** Commands are taken, a removal drains its output, and one that nothing disturbs ends with Retired and no
    error. */
module ControllerRemoval {
  import opened Wrappers
  import opened OutputTypes
  import opened ControllerModel
  import opened ControllerInvariant
  import opened ControllerEffects
  import opened ControllerRuns
  import opened ControllerRelease
  import opened ControllerHolding
  import opened ControllerLiveness
  import opened ControllerFinish
  import opened ControllerPoll
  import opened ControllerObserver
  import opened ControllerMoves
  import opened ControllerPromotion
  import B = RuntimeBranch
  import C = ControlModel

  // ---- Every command is taken ----

  /** A pending command can be taken at once: nothing else is under way. */
  lemma PendingCanBeTaken(s: Sys)
    requires Valid(s) && s.ctl.pending.Some? && !s.finishing
    ensures CanTake(s) && C.TakeChange(s.ctl).1 == s.ctl.pending
  {
  }

  lemma PendingStays(s: Sys, step: Step)
    requires Valid(s) && s.ctl.pending.Some? && !step.TakeStep? && !step.FinishStep?
    ensures Apply(s, step).ctl.pending == s.ctl.pending
  {
    hide LookAtPlanned, LookAtConstructed, PollGroup, PollOutput, FinishOutput, Notify, Expire, WorkerTurn, Grouped,
         Drawn, Listed;
    match step
    case Planned(r) => NothingPrepared(s, step);
    case Constructed(r) => NothingPrepared(s, step);
    case PollGroupStep(g, r) => PollGroupPending(s, g, r);
    case PollOutputStep(id, r) => PollOutputPends(s, id, r);
    case FinishOutputStep(id, cause, generation, closing) => FinishOutputPending(s, id, cause, generation, closing);
    case NotifyStep => NotifyWaits(s);
    case Budget(elapsed) => ExpirePending(s, elapsed);
    case Work(r) => WorkerEffect(s, r);
    case _ =>
  }

  lemma NothingPrepared(s: Sys, step: Step)
    requires Slot(s) && s.ctl.pending.Some? && (step.Planned? || step.Constructed?)
    ensures Apply(s, step) == s
  {
  }

  lemma PollGroupPending(s: Sys, g: nat, r: GroupReading)
    ensures PollGroup(s, g, r).ctl.pending == s.ctl.pending
  {
    hide Polled, EraseGroup;
    if g in s.groups {
      var u := s.(unpolled := s.unpolled - {g});
      ErasePending(if s.groups[g].branch.fault.Some? then FailMembers(u, g) else u, g, Polled(s.groups[g], r).0);
    }
  }

  lemma ErasePending(s: Sys, g: nat, group: Group)
    ensures EraseGroup(s, g, group).ctl.pending == s.ctl.pending
  {
  }

  lemma PollOutputPends(s: Sys, id: nat, r: OutputReading)
    ensures PollOutput(s, id, r).ctl.pending == s.ctl.pending
  {
    if id in s.outputs && s.unpolled == {} {
      hide Promote, NoteFailure, Retire, B.Poll, B.Fail;
      PromotePending(s, id, r);
      NotePending(PollBranch(FailOverdue(Promote(s, id, r), id, r), id, r).0, id);
      NoteIsQuiet(PollBranch(FailOverdue(Promote(s, id, r), id, r), id, r).0, id);
      RetirePending(Examine(s, id, r).0, id);
    }
  }

  lemma NotePending(s: Sys, id: nat)
    requires id in s.outputs
    ensures NoteFailure(s, id).ctl.pending == s.ctl.pending
  {
  }

  lemma RetirePending(s: Sys, id: nat)
    requires id in s.outputs
    ensures Retire(s, id).ctl.pending == s.ctl.pending
  {
  }

  lemma FinishOutputPending(s: Sys, id: nat, cause: Option<Fault>, generation: Option<nat>, closing: Option<Fault>)
    ensures FinishOutput(s, id, cause, generation, closing).ctl.pending == s.ctl.pending
  {
  }

  lemma ExpirePending(s: Sys, elapsed: nat)
    ensures Expire(s, elapsed).ctl.pending == s.ctl.pending
  {
  }

  lemma {:induction false} PendingStaysOver(s: Sys, steps: seq<Step>)
    requires Valid(s) && s.ctl.pending.Some?
    requires forall step :: step in steps ==> !step.TakeStep? && !step.FinishStep?
    ensures Run(s, steps).ctl.pending == s.ctl.pending && Run(s, steps).finishing == s.finishing
    decreases |steps|
  {
    hide Apply, Valid;
    if steps != [] {
      assert steps[0] in steps;
      PendingStays(s, steps[0]);
      StepKeepsFinishing(s, steps[0]);
      StepKeepsValid(s, steps[0]);
      PendingStaysOver(Apply(s, steps[0]), steps[1..]);
    }
  }

  lemma StepKeepsFinishing(s: Sys, step: Step)
    requires !step.FinishStep?
    ensures Apply(s, step).finishing == s.finishing
  {
    hide Take, LookAtPlanned, LookAtConstructed, PollGroup, Examine, Retire, FinishOutput, Notify, Expire, WorkerTurn;
    match step
    case TakeStep(r) => TakeIsQuiet(s, r);
    case Planned(r) => PlannedIsQuiet(s, r);
    case Constructed(r) => ConstructedKeepsFinishing(s, r);
    case PollGroupStep(g, r) => PollGroupEffect(s, g, r);
    case PollOutputStep(id, r) =>
      if id in s.outputs && s.unpolled == {} {
        ExamineIsQuiet(s, id, r);
        RetireEffect(Examine(s, id, r).0, id);
      }
    case FinishOutputStep(id, cause, generation, closing) => FinishOutputIsQuiet(s, id, cause, generation, closing);
    case NotifyStep => NotifyIsQuiet(s);
    case Budget(elapsed) => ExpireKeepsFinishing(s, elapsed);
    case Work(r) => WorkerEffect(s, r);
    case _ =>
  }

  lemma ConstructedKeepsFinishing(s: Sys, r: PublishReading)
    ensures LookAtConstructed(s, r).finishing == s.finishing
  {
    hide Settle;
    if s.prep.Some? { SettleEffect(s, r); }
  }

  lemma ExpireKeepsFinishing(s: Sys, elapsed: nat)
    ensures Expire(s, elapsed).finishing == s.finishing
  {
  }

  lemma {:induction false} GroupStepsFinishNothing(env: Surroundings, again: bool, n: nat)
    requires Proper(env)
    ensures forall step :: step in GroupSteps(env, again, n) ==> !step.TakeStep? && !step.FinishStep?
  {
    if n > 0 {
      assert ForeignOnly(GroupOthers(env, again, n - 1));
      GroupStepsFinishNothing(env, again, n - 1);
    }
  }

  lemma {:induction false} OutputStepsFinishNothing(env: Surroundings, n: nat)
    requires Proper(env)
    ensures forall step :: step in OutputSteps(env, n) ==> !step.TakeStep? && !step.FinishStep?
  {
    if n > 0 {
      assert ForeignOnly(env.others(6, n - 1));
      OutputStepsFinishNothing(env, n - 1);
    }
  }

  // The steps of one poll before its last one.
  function BeforeTaking(s: Sys, env: Surroundings): seq<Step> {
    var trace := PollTrace(s, env);
    trace[..|trace| - 1]
  }

  lemma TakingComesLast(s: Sys, env: Surroundings)
    requires Proper(env)
    ensures PollTrace(s, env) == BeforeTaking(s, env) + [TakeStep(env.take)]
    ensures forall step :: step in BeforeTaking(s, env) ==> !step.TakeStep? && !step.FinishStep?
  {
    hide Run;
    var opening := Opening(s, env);
    var a := Run(s, opening);
    var middle := OutputSteps(env, a.ctl.nextId);
    var b := Run(a, middle);
    GroupStepsFinishNothing(env, false, Run(s, PreparationSteps(env)).nextGroup);
    GroupStepsFinishNothing(env, true, b.nextGroup);
    OutputStepsFinishNothing(env, a.ctl.nextId);
    assert ForeignOnly(env.others(0, 0)) && ForeignOnly(env.others(1, 0)) && ForeignOnly(env.others(2, 0));
    assert ForeignOnly(env.others(3, 0)) && ForeignOnly(env.others(5, 0));
    assert ForeignOnly(env.others(8, 0)) && ForeignOnly(env.others(9, 0));
    var ending := GroupSteps(env, true, b.nextGroup) + env.others(8, 0) + [NotifyStep] + env.others(9, 0);
    assert PollTrace(s, env) == opening + middle + ending + [TakeStep(env.take)];
    assert BeforeTaking(s, env) == opening + middle + ending;
  }

  /** One call of poll() takes the pending command, whatever else happens in it. */
  lemma EveryCommandIsTaken(s: Sys, env: Surroundings)
    requires Valid(s) && Proper(env) && s.ctl.pending.Some? && !s.finishing
    ensures var u := Run(s, BeforeTaking(s, env));
            && u.ctl.pending == s.ctl.pending && CanTake(u)
            && Run(s, PollTrace(s, env)) == Take(u, env.take)
            && Run(s, PollTrace(s, env)).ctl.pending != s.ctl.pending
  {
    hide Apply, Run, Valid, PollTrace, Take, CanTake;
    TakingComesLast(s, env);
    var before := BeforeTaking(s, env);
    var u := Run(s, before);
    PendingStaysOver(s, before);
    RunKeepsValid(s, before);
    PendingCanBeTaken(u);
    RunThen(s, before, [], TakeStep(env.take));
    assert before + [] + [TakeStep(env.take)] == before + [TakeStep(env.take)];
    RunNothing(u);
    TakeIsAStep(u, env.take);
    TakenIsGone(u, env.take);
  }

  lemma TakeIsAStep(s: Sys, r: TakeReading)
    ensures Apply(s, TakeStep(r)) == Take(s, r)
  {
  }

  lemma TakenIsGone(s: Sys, r: TakeReading)
    requires CanTake(s)
    ensures Take(s, r).ctl.pending.None?
  {
    var change := C.TakeChange(s.ctl).1.value;
    var t := Taken(s);
    hide Reject, BeginPreparation, Notify, DrainOutput;
    if change.addition {
      BeginWaits(t, change.id, r.begin);
      NotifyWaits(BeginPreparation(t, change.id, r.begin));
    } else if change.id !in s.outputs {
      RejectWaits(t, change.id, Fault(NO_BRANCH, Drain));
      NotifyWaits(Reject(t, change.id, Fault(NO_BRANCH, Drain)));
    } else {
      DrainWaits(t, change.id, r.generation, r.closing);
    }
  }

  // ---- Draining and stopping an output ----

  // What a drain makes of an output: it closes if its branch ran and nothing refused, otherwise it is failed.
  predicate DrainsTo(o: Output, p: Output, closing: Option<Fault>) {
    && p.stage.Drain? && p.error == o.error && p.groupId == o.groupId && p.deadline == o.deadline
    && if o.branch.state.Active? && closing.None? then p.state.Draining? && p.branch == o.branch.(state := B.Closing)
       else
         && p.state == o.state
         && if Reclaimed(o.branch) then p.branch == o.branch
            else
              && p.branch.state.Broken?
              && p.branch.fault == (if o.branch.fault.Some? then o.branch.fault
                                    else if o.branch.state.Active? then closing else Some(Fault(CANCELLED, Drain)))
  }

  lemma DrainedMeans(o: Output, generation: Option<nat>, closing: Option<Fault>)
    ensures DrainsTo(o, Drained(o, generation, closing), closing)
  {
  }

  lemma DrainIsListed(s: Sys, id: nat, generation: Option<nat>, closing: Option<Fault>)
    requires id in s.outputs && id in s.ctl.table
    ensures var t := DrainOutput(s, id, generation, closing);
            && id in t.ctl.table
            && t.ctl.table[id] == if s.outputs[id].branch.state.Active? && closing.None?
                                  then Snapshot(id, Draining, Drain, s.outputs[id].error) else s.ctl.table[id]
  {
  }

  /** Taking a removal: the output of a running branch is Draining, told and listed so, with whatever failure
      it had; a drain that is refused, or comes too late, fails the branch instead and tells nothing. No other
      output is touched. */
  lemma RemovalMeans(s: Sys, r: TakeReading, id: nat)
    requires Valid(s) && !s.finishing && s.ctl.pending == Some(Change(id, false)) && id in s.outputs
    ensures var o, t := s.outputs[id], Apply(s, TakeStep(r));
            && t.changing == Some(id) && t.ctl.pending.None? && t.ctl.inProgress
            && id in t.outputs && DrainsTo(o, t.outputs[id], r.closing)
            && id in t.ctl.table
            && (if o.branch.state.Active? && r.closing.None? then
                  && t.told == C.Then(s.told, Snapshot(id, Draining, Drain, o.error))
                  && t.ctl.table[id] == Snapshot(id, Draining, Drain, o.error)
                else t.told == s.told && t.ctl.table == s.ctl.table)
            && (forall other :: other in s.outputs && other != id ==>
                  other in t.outputs && t.outputs[other] == s.outputs[other])
  {
    hide Apply, Valid, DrainOutput, Drained, DrainsTo;
    ListedOutput(s, id);
    var o := s.outputs[id];
    TakeIsDrain(s, r, id);
    var t := Taken(s);
    DrainedMeans(o, r.generation, r.closing);
    DrainMoves(t, id, r.generation, r.closing);
    DrainIsListed(t, id, r.generation, r.closing);
    DrainIsQuiet(t, id, r.generation, r.closing);
    DrainTold(t, id, r.generation, r.closing);
  }

  lemma TakeIsDrain(s: Sys, r: TakeReading, id: nat)
    requires Valid(s) && !s.finishing && s.ctl.pending == Some(Change(id, false)) && id in s.outputs
    ensures CanTake(s) && Apply(s, TakeStep(r)) == DrainOutput(Taken(s), id, r.generation, r.closing)
    ensures Taken(s) == s.(ctl := s.ctl.(pending := None, inProgress := true), changing := Some(id))
  {
    hide Valid, DrainOutput, Notify, Reject, BeginPreparation;
    PendingCanBeTaken(s);
  }

  lemma ListedOutput(s: Sys, id: nat)
    requires Valid(s) && id in s.outputs && !s.finishing
    ensures id in s.ctl.table
  {
    assert OutputListed(s, id);
  }

  lemma DrainTold(s: Sys, id: nat, generation: Option<nat>, closing: Option<Fault>)
    requires id in s.outputs
    ensures var o, t := s.outputs[id], DrainOutput(s, id, generation, closing);
            && t.told == (if o.branch.state.Active? && closing.None?
                          then C.Then(s.told, Snapshot(id, Draining, Drain, o.error)) else s.told)
            && t.ctl.pending == s.ctl.pending && t.ctl.inProgress == s.ctl.inProgress
            && (!(o.branch.state.Active? && closing.None?) ==> t.ctl == s.ctl)
  {
  }

  /** Stopping an output: with a failure of the session its branch records that failure, unless it had one
      or is being reclaimed, and nothing is told; without one a running branch is drained as above, and any
      other left alone. */
  lemma StopMeans(s: Sys, id: nat, cause: Option<Fault>, generation: Option<nat>, closing: Option<Fault>)
    requires s.finishing && id in s.outputs
    ensures var o, t := s.outputs[id], Apply(s, FinishOutputStep(id, cause, generation, closing));
            && id in t.outputs
            && (if cause.Some? then
                  && t.told == s.told && t.ctl == s.ctl && t.outputs[id] == o.(branch := t.outputs[id].branch)
                  && if Reclaimed(o.branch) then t.outputs[id].branch == o.branch
                     else t.outputs[id].branch.state.Broken?
                          && t.outputs[id].branch.fault == if o.branch.fault.Some? then o.branch.fault else cause
                else if o.branch.state.Active? then
                  && DrainsTo(o, t.outputs[id], closing)
                  && (closing.None? ==> t.told == C.Then(s.told, Snapshot(id, Draining, Drain, o.error)))
                  && (closing.None? && id in s.ctl.table ==>
                        id in t.ctl.table && t.ctl.table[id] == Snapshot(id, Draining, Drain, o.error))
                else t == s)
            && (forall other :: other in s.outputs && other != id ==>
                  other in t.outputs && t.outputs[other] == s.outputs[other])
  {
    hide Apply, DrainOutput, Drained, DrainsTo;
    StopIsAStep(s, id, cause, generation, closing);
    var o := s.outputs[id];
    if cause.None? && o.branch.state.Active? {
      DrainedMeans(o, generation, closing);
      DrainMoves(s, id, generation, closing);
      DrainTold(s, id, generation, closing);
      if id in s.ctl.table { DrainIsListed(s, id, generation, closing); }
    }
  }

  // ---- A removal that nothing disturbs ----

  // The step records no failure of output id or of its group g, and nobody removes it again.
  predicate Undisturbed(step: Step, id: nat, g: nat) {
    match step
    case OutputFails(i, _) => i != id
    case GroupFails(h, _, _) => h != g
    case CallRemove(i) => i != id
    case FinishOutputStep(i, cause, _, _) => i == id ==> cause.None?
    case PollOutputStep(i, r) => i == id ==> Smooth(r)
    case PollGroupStep(h, r) => h == g ==> r.closing.None? && r.poll.silence.None? && r.after.None?
    case _ => true
  }

  // The last word about an output is that it retired, without an error.
  predicate Departed(h: C.History, id: nat) {
    C.Last(h, id).Some? && C.Last(h, id).value.state.Retired? && C.Last(h, id).value.error.None?
  }

  // Nothing is pending or prepared under this identifier.
  ghost predicate Unclaimed(s: Sys, id: nat) {
    0 < id < s.ctl.nextId && !Coming(s, id) && s.ctl.pending != Some(Change(id, false))
  }

  predicate Notifies(s: Sys, id: nat) {
    s.terminal.Some? && s.terminal.value.id == id
  }

  // The group the output is, or was, in has not failed.
  predicate Sound(s: Sys, g: nat) {
    g in s.groups ==> s.groups[g].branch.fault.None?
  }

  // Output id of group g is on its way out without an error: draining, about to be notified, or gone.
  ghost predicate Leaving(s: Sys, id: nat, g: nat) {
    && Unclaimed(s, id)
    && if id in s.outputs then
         var o := s.outputs[id];
         o.groupId == g && o.state.Draining? && o.branch.fault.None? && o.error.None? && Sound(s, g)
       else if Notifies(s, id) then
         s.terminal.value.error.None? && (s.terminalGroup.Some? ==> s.terminalGroup == Some(g)) && Sound(s, g)
       else Departed(s.told, id)
  }

  lemma StepNoneComes(s: Sys, step: Step)
    requires Valid(s)
    ensures NoneComes(s, Apply(s, step))
  {
    hide Valid;
    if Controls(step) {
      hide Apply;
      ControlComes(s, step);
    } else {
      OthersComeNone(s, step);
    }
  }

  lemma OthersComeNone(s: Sys, step: Step)
    requires !Controls(step)
    ensures NoneComes(s, Apply(s, step))
  {
    hide PollOutput, WorkerTurn;
    match step
    case PollOutputStep(id, r) => PollOutputComesNone(s, id, r);
    case Work(r) => WorkerEffect(s, r);
    case _ =>
  }

  lemma PollOutputComesNone(s: Sys, id: nat, r: OutputReading)
    ensures NoneComes(s, PollOutput(s, id, r))
  {
    if id in s.outputs && s.unpolled == {} {
      hide Promote, FailOverdue, PollBranch, NoteFailure, Retire, NoneWaits, NoneComes;
      var a := Promote(s, id, r);
      PromoteWaits(s, id, r);
      LookWaits(a, id, r);
      var b := Examine(s, id, r).0;
      WaitsTwice(s, a, b);
      RetireWaits(b, id);
      WaitsTwice(s, b, Retire(b, id));
      NoneWaitsNoneComes(s, b);
      NoneWaitsNoneComes(s, Retire(b, id));
    } else {
      PollIsSkipped(s, id, r);
    }
  }

  lemma PromoteWaits(s: Sys, id: nat, r: OutputReading)
    requires id in s.outputs
    ensures NoneWaits(s, Promote(s, id, r)) && id in Promote(s, id, r).outputs
  {
    hide Promote, BecomesRunning;
    PromoteLooks(s, id, r);
    PromotePending(s, id, r);
    PromoteKeepsIds(s, id, r);
    PromoteIsQuiet(s, id, r);
    StartedWaits(s, id, r);
  }

  lemma StartedWaits(s: Sys, id: nat, r: OutputReading)
    requires id in s.outputs
    ensures Started(s, id, r).state.Waiting? ==> s.outputs[id].state.Waiting?
  {
  }

  lemma WaitsTwice(s: Sys, t: Sys, u: Sys)
    requires NoneWaits(s, t) && NoneWaits(t, u)
    ensures NoneWaits(s, u)
  {
  }

  lemma StaysUnclaimed(s: Sys, step: Step, id: nat, g: nat)
    requires Valid(s) && Unclaimed(s, id) && Undisturbed(step, id, g)
    ensures Unclaimed(Apply(s, step), id)
  {
    hide Apply, Valid, Coming;
    StepNoneComes(s, step);
    PendingMoves(s, step, id);
  }

  lemma PolledQuietly(group: Group, r: GroupReading)
    requires group.branch.fault.None? && r.closing.None? && r.poll.silence.None? && r.after.None?
    requires !group.branch.state.Prepared?
    ensures Polled(group, r).0.branch.fault.None?
  {
  }

  lemma GroupIsUp(s: Sys, g: nat)
    requires Valid(s) && g in s.groups
    ensures !s.groups[g].branch.state.Prepared?
  {
  }

  lemma StaysSound(s: Sys, step: Step, id: nat, g: nat)
    requires Valid(s) && g in s.groups && Sound(s, g) && Undisturbed(step, id, g)
    ensures Sound(Apply(s, step), g)
  {
    hide Apply, Valid, MovedBranch, Undisturbed;
    GroupIsUp(s, g);
    StepMovesGroup(s, step, g);
    QuietBranch(s, step, id, g);
  }

  lemma QuietBranch(s: Sys, step: Step, id: nat, g: nat)
    requires g in s.groups && Sound(s, g) && Undisturbed(step, id, g) && !s.groups[g].branch.state.Prepared?
    ensures MovedBranch(s, step, g).fault.None?
  {
    hide Polled;
    if step.PollGroupStep? && step.group == g { PolledQuietly(s.groups[g], step.groupReading); }
  }

  // A draining output in a quiet poll.
  lemma DrainingIsLookedAt(s: Sys, id: nat, r: OutputReading)
    requires id in s.outputs && s.outputs[id].state.Draining? && s.outputs[id].branch.fault.None? && Smooth(r)
    ensures var o, p := s.outputs[id], Looked(s, id, r);
            && p.groupId == o.groupId && p.state.Draining? && p.branch.fault.None? && p.error == o.error
            && !BecomesRunning(s, PollOutputStep(id, r), id)
  {
  }

  lemma DrainingMoves(s: Sys, step: Step, id: nat, g: nat)
    requires Leaving(s, id, g) && id in s.outputs && Undisturbed(step, id, g) && !s.outputs[id].branch.state.Active?
    ensures var o, p := s.outputs[id], Moved(s, step, id);
            && p.groupId == g && p.state.Draining? && p.branch.fault.None? && p.error.None?
  {
    hide Looked;
    if step.PollOutputStep? && step.id == id { DrainingIsLookedAt(s, id, step.outputReading); }
  }

  lemma DrainingIsStopping(s: Sys, id: nat)
    requires Valid(s) && id in s.outputs && s.outputs[id].state.Draining?
    ensures !s.outputs[id].branch.state.Active? && s.outputs[id].groupId in s.groups
  {
    assert OutputListed(s, id);
  }

  lemma TellsLast(h: C.History, said: seq<Snapshot>, e: Snapshot)
    ensures Tell(h, said + [e]) == C.Then(Tell(h, said), e)
  {
    ToldTwice(h, said, [e]);
    ToldOne(Tell(h, said), e);
  }

  // The draining output retires: it is notified, or gone.
  lemma DrainingGoes(s: Sys, id: nat, g: nat, r: OutputReading)
    requires Valid(s) && Leaving(s, id, g) && id in s.outputs && s.unpolled == {} && Retires(s, id, r) && Smooth(r)
    ensures var t := Apply(s, PollOutputStep(id, r));
            if Defers(s, id, r) then
              Notifies(t, id) && t.terminal.value.error.None? && (t.terminalGroup.Some? ==> t.terminalGroup == Some(g))
            else !Notifies(t, id) && Departed(t.told, id)
  {
    hide Apply, Valid, Looked, BecomesRunning, Retires, Defers, Unclaimed, Said;
    DrainingIsLookedAt(s, id, r);
    OutputNotNotified(s, id);
    if Defers(s, id, r) { DefersHolds(s, id, r); }
    GoneIsNotified(s, id, r);
    if !Defers(s, id, r) {
      StepSays(s, PollOutputStep(id, r));
      PollSaysOfOutput(s, id, r);
      DrainingSaysRetired(s, id, r);
    }
  }

  lemma DefersHolds(s: Sys, id: nat, r: OutputReading)
    requires id in s.outputs && Defers(s, id, r)
    ensures s.changing == Some(id)
  {
  }

  lemma DrainingSaysRetired(s: Sys, id: nat, r: OutputReading)
    requires id in s.outputs && s.outputs[id].state.Draining? && s.outputs[id].branch.fault.None? && Smooth(r)
    requires Retires(s, id, r) && !Defers(s, id, r) && s.outputs[id].error.None?
    ensures Departed(Tell(s.told, SaidOfOutput(s, id, r)), id)
  {
    DrainingIsLookedAt(s, id, r);
    hide Looked, BecomesRunning, Retires, Defers, Tell;
    var last := SnapshotOf(id, Looked(s, id, r).(state := Retired));
    assert SaidOfOutput(s, id, r) == [] + [last];
    TellsLast(s.told, [], last);
  }

  lemma OutputNotNotified(s: Sys, id: nat)
    requires Valid(s) && id in s.outputs
    ensures !Notifies(s, id) && (s.changing == Some(id) ==> s.terminalGroup.None?)
  {
  }

  lemma DrainingStays(s: Sys, step: Step, id: nat, g: nat)
    requires Valid(s) && Leaving(s, id, g) && id in s.outputs && Undisturbed(step, id, g)
    ensures Leaving(Apply(s, step), id, g)
  {
    hide Apply, Valid, Unclaimed, Moved, Retires, Defers, Departed, Sound;
    DrainingIsStopping(s, id);
    StaysUnclaimed(s, step, id, g);
    StaysSound(s, step, id, g);
    StepMoves(s, step, id);
    if id in Apply(s, step).outputs {
      DrainingMoves(s, step, id, g);
    } else {
      DrainingGoes(s, id, g, step.outputReading);
    }
  }

  // An output that is gone and unclaimed does not come back.
  lemma StaysGone(s: Sys, step: Step, id: nat)
    requires Valid(s) && Unclaimed(s, id) && id !in s.outputs
    ensures id !in Apply(s, step).outputs
  {
    hide Apply, Valid;
    StepBrings(s, step, id);
  }

  lemma NoticeIsReturned(s: Sys, id: nat)
    requires Valid(s) && Notifies(s, id)
    ensures s.terminal.value.state.Retired?
  {
  }

  lemma NotifiedStays(s: Sys, step: Step, id: nat, g: nat)
    requires Valid(s) && Leaving(s, id, g) && id !in s.outputs && Notifies(s, id) && Undisturbed(step, id, g)
    ensures Leaving(Apply(s, step), id, g)
  {
    NoticeIsReturned(s, id);
    hide Apply, Valid, Unclaimed, Polled, Due;
    StaysUnclaimed(s, step, id, g);
    StaysGone(s, step, id);
    NoticeMoves(s, step);
    QuietNotice(s, step, id, g);
    if g in s.groups { StaysSound(s, step, id, g); } else { GoneGroupIsSound(s, step, id, g); }
  }

  lemma QuietNotice(s: Sys, step: Step, id: nat, g: nat)
    requires Valid(s) && Leaving(s, id, g) && id !in s.outputs && Notifies(s, id) && Undisturbed(step, id, g)
    ensures Noticed(s, step) == s.terminal
  {
    if step.PollGroupStep? && step.group == g && g in s.groups {
      GroupIsUp(s, g);
      PolledQuietly(s.groups[g], step.groupReading);
    }
    hide Valid, Polled;
  }

  // A group that comes while the slot is held belongs to its own candidate; here there is none.
  lemma GoneGroupIsSound(s: Sys, step: Step, id: nat, g: nat)
    requires Valid(s) && Notifies(s, id) && g !in s.groups
    ensures Sound(Apply(s, step), g)
  {
    SlotOf(s);
    hide Apply, Valid;
    if Publishes(s, step) { NothingToJudge(s, step); } else { GroupsComeByPublication(s, step); }
  }

  // Of an output that is gone nothing more is said.
  lemma NothingIsSaid(s: Sys, step: Step, id: nat)
    requires Valid(s) && Unclaimed(s, id) && id !in s.outputs && !Notifies(s, id)
    ensures forall i :: 0 <= i < |Said(s, step)| ==> Said(s, step)[i].id != id
  {
    PendingIsElse(s, id);
    hide Valid, Said;
    forall i | 0 <= i < |Said(s, step)| ensures Said(s, step)[i].id != id {
      SaidConcerns(s, step, i);
    }
  }

  lemma PendingIsElse(s: Sys, id: nat)
    requires Unclaimed(s, id)
    ensures (s.ctl.pending.Some? ==> s.ctl.pending.value.id != id) && (s.prep.Some? ==> s.prep.value.id != id)
  {
  }

  lemma {:induction false} LastStands(h: C.History, said: seq<Snapshot>, id: nat)
    requires forall i :: 0 <= i < |said| ==> said[i].id != id
    ensures C.Last(Tell(h, said), id) == C.Last(h, id)
    decreases |said|
  {
    if said != [] { LastStands(C.Then(h, said[0]), said[1..], id); }
  }

  // Nor is it notified again.
  lemma NotNotifiedAgain(s: Sys, step: Step, id: nat)
    requires Valid(s) && Unclaimed(s, id) && id !in s.outputs && !Notifies(s, id)
    ensures !Notifies(Apply(s, step), id)
  {
    GoneIsNotChanging(s, id);
    StepKeepsValid(s, step);
    NotifiedIsChanging(Apply(s, step), id);
    hide Apply, Valid;
    if Notifies(Apply(s, step), id) {
      OnlyTakeChanges(s, step);
      TakesPending(s, step, id);
    }
  }

  lemma NotifiedIsChanging(s: Sys, id: nat)
    requires Valid(s)
    ensures Notifies(s, id) ==> s.changing == Some(id)
  {
  }

  lemma GoneIsNotChanging(s: Sys, id: nat)
    requires Valid(s) && Unclaimed(s, id) && id !in s.outputs && !Notifies(s, id)
    ensures s.changing != Some(id)
  {
  }

  lemma TakesPending(s: Sys, step: Step, id: nat)
    requires Valid(s) && Unclaimed(s, id) && step.TakeStep? && s.changing.None?
    ensures Apply(s, step).changing != Some(id)
  {
    PendingIsElse(s, id);
    if CanTake(s) {
      var change := C.TakeChange(s.ctl).1.value;
      var t := Taken(s);
      hide Valid, BeginPreparation, Reject, Notify, DrainOutput;
      if change.addition {
        BeginIsQuiet(t, change.id, step.take.begin);
        NotifyMayFree(BeginPreparation(t, change.id, step.take.begin));
      } else if change.id !in s.outputs {
        RejectIsQuiet(t, change.id, Fault(NO_BRANCH, Drain));
        NotifyMayFree(Reject(t, change.id, Fault(NO_BRANCH, Drain)));
      } else {
        DrainIsQuiet(t, change.id, step.take.generation, step.take.closing);
      }
    }
  }

  lemma DepartedStays(s: Sys, step: Step, id: nat, g: nat)
    requires Valid(s) && Leaving(s, id, g) && id !in s.outputs && !Notifies(s, id) && Undisturbed(step, id, g)
    ensures Leaving(Apply(s, step), id, g)
  {
    hide Apply, Valid, Unclaimed, Said;
    StaysUnclaimed(s, step, id, g);
    StaysGone(s, step, id);
    NotNotifiedAgain(s, step, id);
    NothingIsSaid(s, step, id);
    StepSays(s, step);
    LastStands(s.told, Said(s, step), id);
  }

  lemma StepKeepsLeaving(s: Sys, step: Step, id: nat, g: nat)
    requires Valid(s) && Leaving(s, id, g) && Undisturbed(step, id, g)
    ensures Leaving(Apply(s, step), id, g)
    ensures Times(Apply(s, step).told, id, Failed) == Times(s.told, id, Failed)
  {
    hide Apply, Valid, Leaving, Said;
    LeavingIsNotFailed(s, step, id, g);
    SilentMentions(Said(s, step), id, Failed);
    StepCounts(s, step, id, Failed);
    if id in s.outputs {
      DrainingStays(s, step, id, g);
    } else if Notifies(s, id) {
      NotifiedStays(s, step, id, g);
    } else {
      DepartedStays(s, step, id, g);
    }
  }

  lemma LeavingIsNotFailed(s: Sys, step: Step, id: nat, g: nat)
    requires Valid(s) && Leaving(s, id, g) && Undisturbed(step, id, g)
    ensures Silent(Said(s, step), id, Failed)
  {
    hide Valid, Said;
    if id in s.outputs {
      DrainingIsNotFailed(s, step, id, g);
    } else if Notifies(s, id) {
      QuietNotice(s, step, id, g);
      NoticeIsReturned(s, id);
      NotifiedIsNotFailed(s, step, id);
    } else {
      NothingIsSaid(s, step, id);
    }
  }

  lemma DrainingIsNotFailed(s: Sys, step: Step, id: nat, g: nat)
    requires Valid(s) && Leaving(s, id, g) && id in s.outputs && Undisturbed(step, id, g)
    ensures Silent(Said(s, step), id, Failed)
  {
    hide Said, Valid, Looked, Retires, Defers;
    PendingIsElse(s, id);
    OutputNotNotified(s, id);
    if step.PollOutputStep? && step.id == id && s.unpolled == {} {
      DrainingSays(s, id, g, step.outputReading);
      PollSaysOfOutput(s, id, step.outputReading);
    } else {
      NoneSaysFailed(s, step, id);
    }
  }

  lemma DrainingSays(s: Sys, id: nat, g: nat, r: OutputReading)
    requires Leaving(s, id, g) && id in s.outputs && Smooth(r)
    ensures Silent(SaidOfOutput(s, id, r), id, Failed)
  {
    DrainingIsLookedAt(s, id, r);
    hide Looked, Retires, Defers, BecomesRunning;
  }

  lemma NoneSaysFailed(s: Sys, step: Step, id: nat)
    requires (s.ctl.pending.Some? ==> s.ctl.pending.value.id != id) && (s.prep.Some? ==> s.prep.value.id != id)
    requires !Notifies(s, id) && !(step.PollOutputStep? && step.id == id && s.unpolled == {})
    ensures Silent(Said(s, step), id, Failed)
  {
    hide Admission, Refusal, Polled, Looked, Retires, Defers, BecomesRunning;
  }

  lemma NotifiedIsNotFailed(s: Sys, step: Step, id: nat)
    requires Unclaimed(s, id) && Notifies(s, id) && id !in s.outputs && s.terminal.value.state.Retired?
    requires Noticed(s, step) == s.terminal && s.terminal.value.error.None?
    ensures Silent(Said(s, step), id, Failed)
  {
    PendingIsElse(s, id);
    hide Admission, Refusal, Polled, Looked, Retires, Defers, BecomesRunning;
  }

  /** In every run that records no failure of it or of its group, a draining output keeps draining, is then
      notified, and departs: its last report is Retired without an error, and Failed is never reported. */
  lemma {:induction false} CleanRemoval(s: Sys, steps: seq<Step>, id: nat, g: nat)
    requires Valid(s) && Leaving(s, id, g) && forall step :: step in steps ==> Undisturbed(step, id, g)
    ensures Leaving(Run(s, steps), id, g)
    ensures Times(Run(s, steps).told, id, Failed) == Times(s.told, id, Failed)
    decreases |steps|
  {
    hide Apply, Valid, Leaving, Undisturbed;
    if steps != [] {
      assert steps[0] in steps;
      StepKeepsLeaving(s, steps[0], id, g);
      StepKeepsValid(s, steps[0]);
      CleanRemoval(Apply(s, steps[0]), steps[1..], id, g);
    }
  }

  // Step i of the run ends the change of id: the slot is free, the output gone, and Retired without an error
  // the last word about it.
  ghost predicate DepartsAt(s: Sys, steps: seq<Step>, i: nat, id: nat) {
    && i < |steps|
    && var t := Run(s, steps[..i + 1]);
       && t.changing.None? && !t.ctl.inProgress && id !in t.outputs && id !in t.ctl.table && Departed(t.told, id)
       && Times(t.told, id, Failed) == Times(s.told, id, Failed)
  }

  /** And it does depart: under fair polls, in more rounds than an explicit bound, the removal ends, with the
      slot free, the output gone and Retired without an error reported. */
  lemma CleanRemovalEnds(s: Sys, env: Schedule, i: nat, n: nat, id: nat, g: nat, k: nat)
    requires Valid(s) && Awaited(s) && FairSchedule(env, k) && s.changing == Some(id) && Bound(s, id, k) < n
    requires Leaving(s, id, g) && forall step :: step in ManyRounds(s, env, i, n) ==> Undisturbed(step, id, g)
    ensures exists j: nat :: DepartsAt(s, ManyRounds(s, env, i, n), j, id)
  {
    hide Apply, Run, Valid, Awaited, ManyRounds, Bound, FairSchedule, Undisturbed, Leaving;
    EveryChangeEnds(s, env, i, n, id, k);
    var steps := ManyRounds(s, env, i, n);
    var j: nat :| FreesAt(s, steps, j, id);
    EndsCleanly(s, steps, j, id, g);
  }

  lemma EndsCleanly(s: Sys, steps: seq<Step>, j: nat, id: nat, g: nat)
    requires Valid(s) && FreesAt(s, steps, j, id) && Leaving(s, id, g)
    requires forall step :: step in steps ==> Undisturbed(step, id, g)
    ensures DepartsAt(s, steps, j, id)
  {
    hide Apply, Run, Valid, Undisturbed, Leaving, BecomesRunning;
    var here, after := Run(s, steps[..j]), Run(s, steps[..j + 1]);
    assert steps[..j + 1] == steps[..j] + [] + [steps[j]];
    RunThen(s, steps[..j], [], steps[j]);
    RunNothing(here);
    CleanRemoval(s, steps[..j], id, g);
    CleanRemoval(s, steps[..j + 1], id, g);
    RunKeepsValid(s, steps[..j]);
    RunKeepsValid(s, steps[..j + 1]);
    NeverRunsAgain(here, steps[j], id, g);
    FreeMeansDeparted(after, id, g);
  }

  lemma NeverRunsAgain(s: Sys, step: Step, id: nat, g: nat)
    requires Leaving(s, id, g)
    ensures !BecomesRunning(s, step, id)
  {
  }

  lemma FreeMeansDeparted(s: Sys, id: nat, g: nat)
    requires Valid(s) && Leaving(s, id, g) && id !in s.outputs && s.changing.None?
    ensures Departed(s.told, id)
  {
  }

  /** A removal of a running, healthy output begins such a departure. */
  lemma RemovalLeaves(s: Sys, r: TakeReading, id: nat)
    requires Valid(s) && !s.finishing && s.ctl.pending == Some(Change(id, false)) && id in s.outputs
    requires var o := s.outputs[id]; o.branch.state.Active? && o.branch.fault.None? && o.error.None?
    requires Sound(s, s.outputs[id].groupId) && r.closing.None?
    ensures var t := Apply(s, TakeStep(r)); Leaving(t, id, s.outputs[id].groupId) && t.changing == Some(id)
  {
    hide Valid, Apply, DrainOutput;
    RemovedIsNumbered(s, r, id);
    RemovalMeans(s, r, id);
    TakeIsDrain(s, r, id);
    DrainIsQuiet(Taken(s), id, r.generation, r.closing);
  }

  lemma RemovedIsNumbered(s: Sys, r: TakeReading, id: nat)
    requires Valid(s) && s.ctl.pending == Some(Change(id, false)) && id in s.outputs && !s.finishing
    ensures 0 < id < s.ctl.nextId && s.prep.None?
    ensures Apply(s, TakeStep(r)).ctl.nextId == s.ctl.nextId
  {
    assert OutputListed(s, id);
    TakeIsDrain(s, r, id);
    hide Apply, DrainOutput;
    DrainWaits(Taken(s), id, r.generation, r.closing);
  }
}
