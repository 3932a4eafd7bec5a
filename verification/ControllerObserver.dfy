/** What the observer of the controller is told about an output, over whole runs. */
module ControllerObserver {
  import opened Wrappers
  import opened OutputTypes
  import opened ControllerModel
  import opened ControllerInvariant
  import opened ControllerEffects
  import opened ControllerTable
  import opened ControllerRuns
  import opened ControllerHistory
  import B = RuntimeBranch
  import C = ControlModel

  // How often an output was reported Running.
  function Runs(h: C.History, id: nat): nat {
    match h
    case Start => 0
    case Then(past, e) => Runs(past, id) + if e.id == id && e.state.Running? then 1 else 0
  }

  // Only Preparing and Waiting are reported of an output before Running.
  ghost predicate Early(h: C.History) {
    forall a, b :: C.Before(h, a, b) && a.id == b.id && b.state.Running? ==> a.state.Preparing? || a.state.Waiting?
  }

  // Of a listed output, the observer was told only what was written to the table; of one no longer
  // listed, that it retired.
  ghost predicate Linked(c: C.Control, told: C.History) {
    && (forall e :: C.Occurs(told, e) ==> 0 < e.id < c.nextId)
    && (forall e :: C.Occurs(told, e) && e.id in c.table ==> C.Occurs(c.history, e))
    && (forall id: nat :: 0 < id < c.nextId && id !in c.table ==> ToldRetired(told, id))
  }

  predicate ToldRetired(h: C.History, id: nat) {
    h.Then? && ((h.entry.id == id && h.entry.state.Retired?) || ToldRetired(h.past, id))
  }

  lemma {:induction false} RetirementOccurs(h: C.History, id: nat)
    requires ToldRetired(h, id)
    ensures exists e :: C.Occurs(h, e) && e.id == id && e.state.Retired?
  {
    if h.entry.id == id && h.entry.state.Retired? {
      assert C.Occurs(h, h.entry);
    } else {
      RetirementOccurs(h.past, id);
      var e :| C.Occurs(h.past, e) && e.id == id && e.state.Retired?;
      assert C.Occurs(h, e);
    }
  }

  // ---- Steps that report no output Running ----

  ghost predicate Mute(s: Sys, t: Sys) {
    && (forall id: nat :: Runs(t.told, id) == Runs(s.told, id))
    && (Early(s.told) <==> Early(t.told))
    && (Linked(s.ctl, s.told) ==> Linked(t.ctl, t.told))
    && t.ctl.nextId == s.ctl.nextId
  }

  lemma MuteTwice(s: Sys, t: Sys, u: Sys)
    requires Mute(s, t) && Mute(t, u)
    ensures Mute(s, u)
  {
  }

  lemma PublishIsMute(s: Sys, snapshot: Snapshot)
    requires !snapshot.state.Running? && 0 < snapshot.id < s.ctl.nextId
    ensures Mute(s, Publish(s, snapshot))
  {
    var t := Publish(s, snapshot);
    assert forall a, b :: C.Before(s.told, a, b) ==> C.Before(t.told, a, b);
    if Early(s.told) {
      forall a, b | C.Before(t.told, a, b) && a.id == b.id && b.state.Running?
        ensures a.state.Preparing? || a.state.Waiting?
      {
        assert C.Before(s.told, a, b);
      }
    }
    if Linked(s.ctl, s.told) { PublishKeepsLink(s.ctl, s.told, snapshot); }
  }

  lemma PublishKeepsLink(c: C.Control, told: C.History, snapshot: Snapshot)
    requires Linked(c, told) && 0 < snapshot.id < c.nextId
    ensures Linked(C.Publish(c, snapshot), C.Then(told, snapshot))
  {
    var d := C.Publish(c, snapshot);
    forall e | C.Occurs(C.Then(told, snapshot), e)
      ensures 0 < e.id < d.nextId && (e.id in d.table ==> C.Occurs(d.history, e))
    {
      if e != snapshot { assert C.Occurs(told, e); }
    }
    forall id: nat | 0 < id < d.nextId && id !in d.table ensures ToldRetired(C.Then(told, snapshot), id) {
      if id !in c.table { assert ToldRetired(told, id); }
    }
  }

  // The mailbox changes, but neither the table nor what was told.
  lemma SameTableIsMute(s: Sys, t: Sys)
    requires t.told == s.told && t.ctl.table == s.ctl.table && t.ctl.history == s.ctl.history
    requires t.ctl.nextId == s.ctl.nextId
    ensures Mute(s, t)
  {
  }

  // One snapshot more, and perhaps other changes of the mailbox.
  lemma TellingIsMute(s: Sys, t: Sys, snapshot: Snapshot)
    requires !snapshot.state.Running? && 0 < snapshot.id < s.ctl.nextId && t.told == C.Then(s.told, snapshot)
    requires var c := C.Publish(s.ctl, snapshot);
             t.ctl.table == c.table && t.ctl.history == c.history && t.ctl.nextId == c.nextId
    ensures Mute(s, t)
  {
    PublishIsMute(s, snapshot);
    hide C.Publish, Linked, Early, Runs;
    var u := Publish(s, snapshot);
    assert t.told == u.told && t.ctl.table == u.ctl.table && t.ctl.history == u.ctl.history;
    SameTableIsMute(u, t);
    MuteTwice(s, u, t);
  }

  lemma RejectIsMute(s: Sys, id: nat, f: Fault)
    requires 0 < id < s.ctl.nextId
    ensures Mute(s, Reject(s, id, f))
  {
    hide Mute;
    TellingIsMute(s, Reject(s, id, f), Snapshot(id, Failed, f.stage, Some(f.error)));
  }

  // The pending notification, if there is one, reports Retired.
  ghost predicate Terminal(s: Sys) {
    s.terminal.Some? ==> s.terminal.value.state.Retired? && 0 < s.terminal.value.id < s.ctl.nextId
  }

  lemma NotifyIsMute(s: Sys)
    requires Terminal(s)
    ensures Mute(s, Notify(s))
  {
    var t := Notify(s);
    if t == s { SameTableIsMute(s, t); } else {
      hide Mute;
      TellingIsMute(s, t, s.terminal.value);
    }
  }

  lemma BegunIsMute(s: Sys, id: nat, r: BeginReading)
    requires 0 < id < s.ctl.nextId
    ensures Mute(s, Begun(s, id, r)) && Begun(s, id, r).ctl.nextId == s.ctl.nextId
  {
    hide Mute, Available;
    TellingIsMute(s, Begun(s, id, r), Snapshot(id, Preparing, Preparation, None));
  }

  lemma BeginIsMute(s: Sys, id: nat, r: BeginReading)
    requires 0 < id < s.ctl.nextId && s.terminal.None?
    ensures Mute(s, BeginPreparation(s, id, r)) && Terminal(BeginPreparation(s, id, r))
  {
    BeginTerminal(s, id, r);
    hide Reject, Begun, Mute;
    if r.missing.Some? {
      RejectIsMute(s, id, r.missing.value);
    } else {
      BegunIsMute(s, id, r);
      if r.noWorker.Some? {
        var t := Begun(s, id, r);
        var u := t.(prep := None);
        SameTableIsMute(t, u);
        RejectIsMute(u, id, r.noWorker.value);
        MuteTwice(s, t, u);
        MuteTwice(s, u, Reject(u, id, r.noWorker.value));
      }
    }
  }

  lemma RejectTerminal(s: Sys, id: nat, f: Fault)
    requires 0 < id < s.ctl.nextId
    ensures Terminal(Reject(s, id, f))
  {
  }

  lemma BeginTerminal(s: Sys, id: nat, r: BeginReading)
    requires 0 < id < s.ctl.nextId && s.terminal.None?
    ensures Terminal(BeginPreparation(s, id, r))
  {
    hide Reject;
    if r.missing.Some? {
      RejectTerminal(s, id, r.missing.value);
    } else if r.noWorker.Some? {
      RejectTerminal(Begun(s, id, r).(prep := None), id, r.noWorker.value);
    }
  }

  lemma DrainIsMute(s: Sys, id: nat, generation: Option<nat>, closing: Option<Fault>)
    requires id in s.outputs && 0 < id < s.ctl.nextId
    ensures Mute(s, DrainOutput(s, id, generation, closing))
  {
    hide Mute;
    var t := DrainOutput(s, id, generation, closing);
    if t.told == s.told { SameTableIsMute(s, t); } else { TellingIsMute(s, t, SnapshotOf(id, t.outputs[id])); }
  }

  // The identifiers the controller deals with have been handed out.
  ghost predicate Numbered(s: Sys) {
    && Terminal(s)
    && (s.ctl.pending.Some? ==> 0 < s.ctl.pending.value.id < s.ctl.nextId)
    && (s.prep.Some? ==> 0 < s.prep.value.id < s.ctl.nextId)
    && (forall id :: id in s.outputs ==> 0 < id < s.ctl.nextId)
  }

  lemma ValidIsNumbered(s: Sys)
    requires Valid(s)
    ensures Numbered(s)
  {
    forall id | id in s.outputs ensures 0 < id < s.ctl.nextId {
      assert OutputListed(s, id);
    }
  }

  lemma TakeIsMute(s: Sys, r: TakeReading)
    requires Numbered(s)
    ensures Mute(s, Take(s, r))
  {
    if CanTake(s) {
      var change := C.TakeChange(s.ctl).1.value;
      var t := Taken(s);
      hide Reject, BeginPreparation, Notify, DrainOutput, Mute;
      SameTableIsMute(s, t);
      if change.addition {
        var u := BeginPreparation(t, change.id, r.begin);
        BeginIsMute(t, change.id, r.begin);
        NotifyIsMute(u);
        MuteTwice(s, t, u);
        MuteTwice(s, u, Notify(u));
      } else if change.id !in s.outputs {
        var u := Reject(t, change.id, Fault(NO_BRANCH, Drain));
        RejectIsMute(t, change.id, Fault(NO_BRANCH, Drain));
        RejectTerminal(t, change.id, Fault(NO_BRANCH, Drain));
        NotifyIsMute(u);
        MuteTwice(s, t, u);
        MuteTwice(s, u, Notify(u));
      } else {
        DrainIsMute(t, change.id, r.generation, r.closing);
        MuteTwice(s, t, DrainOutput(t, change.id, r.generation, r.closing));
      }
    } else {
      SameTableIsMute(s, s);
    }
  }

  lemma FinishIsMute(s: Sys)
    requires Numbered(s)
    ensures Mute(s, BeginFinish(s))
  {
    hide Reject, Notify, Mute;
    var t := s.(finishing := true, ctl := C.SetEnabled(s.ctl, false));
    var (ctl, change) := C.TakeChange(t.ctl);
    SameTableIsMute(s, t);
    if change.Some? {
      var u := t.(ctl := ctl);
      SameTableIsMute(s, u);
      var v := Reject(u, change.value.id, Fault(CANCELLED, Publication));
      RejectIsMute(u, change.value.id, Fault(CANCELLED, Publication));
      RejectTerminal(u, change.value.id, Fault(CANCELLED, Publication));
      MuteTwice(s, u, v);
      NotifyIsMute(v);
      MuteTwice(s, v, Notify(v));
    } else {
      NotifyIsMute(t);
      MuteTwice(s, t, Notify(t));
    }
  }

  lemma PlannedIsMute(s: Sys, r: AdmitReading)
    requires Numbered(s)
    ensures Mute(s, LookAtPlanned(s, r))
  {
    if s.prep.Some? && s.prep.value.exchange.stage.Planned? {
      hide Reject, Admission, Mute;
      PlannedEffect(s, r);
      var verdict := Admission(s, s.prep.value, r);
      var t := Judging(s, r);
      SameTableIsMute(s, t);
      if verdict.Failure? {
        var u := Reject(t, s.prep.value.id, verdict.error);
        RejectIsMute(t, s.prep.value.id, verdict.error);
        MuteTwice(s, t, u);
        SameTableIsMute(u, LookAtPlanned(s, r));
        MuteTwice(s, u, LookAtPlanned(s, r));
      } else {
        SameTableIsMute(s, LookAtPlanned(s, r));
      }
    } else {
      SameTableIsMute(s, s);
    }
  }

  lemma SettleIsMute(s: Sys, r: PublishReading)
    requires s.prep.Some? && 0 < s.prep.value.id < s.ctl.nextId
    ensures Mute(s, Settle(s, r))
  {
    hide Reject, Mute, InsertOutput, JoinGroup;
    var task := s.prep.value;
    if task.broken.Some? || task.plan.Failure? {
      RejectIsMute(s, task.id, if task.broken.Some? then task.broken.value else Fault(CANCELLED, Publication));
    } else if Refusal(s, task, r).Some? {
      RejectIsMute(s, task.id, Refusal(s, task, r).value);
    } else {
      var t := JoinGroup(s, task, r);
      JoinTellsNothing(s, task, r);
      SameTableIsMute(s, t);
      if r.ending.OutputNotInserted? {
        RejectIsMute(t, task.id, r.ending.fault);
        MuteTwice(s, t, Settle(s, r));
      } else {
        TargetIsRegistered(s, task, r);
        InsertIsMute(t, task, r);
        MuteTwice(s, t, Settle(s, r));
      }
    }
  }

  lemma JoinTellsNothing(s: Sys, task: Task, r: PublishReading)
    requires task.plan.Success?
    ensures JoinGroup(s, task, r).told == s.told && JoinGroup(s, task, r).ctl == s.ctl
  {
  }

  lemma TargetIsRegistered(s: Sys, task: Task, r: PublishReading)
    requires task.plan.Success? && Refusal(s, task, r).None?
    ensures Target(task) in JoinGroup(s, task, r).groups
  {
  }

  lemma InsertIsMute(s: Sys, task: Task, r: PublishReading)
    requires task.plan.Success? && Target(task) in s.groups && 0 < task.id < s.ctl.nextId
    ensures Mute(s, InsertOutput(s, task, r))
  {
    hide Mute;
    var t := InsertOutput(s, task, r);
    if t.told == s.told { SameTableIsMute(s, t); } else {
      TellingIsMute(s, t, SnapshotOf(task.id, NewOutput(task, r)));
    }
  }

  lemma ConstructedIsMute(s: Sys, r: PublishReading)
    requires Numbered(s)
    ensures Mute(s, LookAtConstructed(s, r))
  {
    hide Mute, Settle;
    if s.prep.Some? && s.prep.value.exchange.stage.Constructed? {
      SettleIsMute(s, r);
      SameTableIsMute(Settle(s, r), LookAtConstructed(s, r));
      MuteTwice(s, Settle(s, r), LookAtConstructed(s, r));
    } else {
      SameTableIsMute(s, s);
    }
  }

  lemma ExpireIsMute(s: Sys, elapsed: nat)
    requires Numbered(s)
    ensures Mute(s, Expire(s, elapsed))
  {
    hide Mute;
    var t := Expire(s, elapsed);
    if t.told == s.told { SameTableIsMute(s, t); } else {
      TellingIsMute(s, t, Snapshot(s.prep.value.id, Failed, Preparation, Some(EXPIRED)));
    }
  }

  lemma EraseIsMute(s: Sys, g: nat, group: Group)
    requires Terminal(s)
    ensures Mute(s, EraseGroup(s, g, group))
  {
    hide Mute;
    var t := EraseGroup(s, g, group);
    if t.told == s.told { SameTableIsMute(s, t); } else { TellingIsMute(s, t, t.told.entry); }
  }

  lemma PollGroupIsMute(s: Sys, g: nat, r: GroupReading)
    requires Numbered(s)
    ensures Mute(s, PollGroup(s, g, r))
  {
    hide Mute, Polled, EraseGroup;
    var u := s.(unpolled := s.unpolled - {g});
    if g in s.groups {
      var t := if s.groups[g].branch.fault.Some? then FailMembers(u, g) else u;
      SameTableIsMute(s, t);
      var (polled, retired) := Polled(s.groups[g], r);
      EraseIsMute(t, g, polled);
      MuteTwice(s, t, EraseGroup(t, g, polled));
      SameTableIsMute(s, t.(groups := t.groups[g := polled]));
    } else {
      SameTableIsMute(s, u);
    }
  }

  lemma NoteIsMute(s: Sys, id: nat)
    requires id in s.outputs && 0 < id < s.ctl.nextId
    ensures Mute(s, NoteFailure(s, id))
  {
    hide Mute;
    var t := NoteFailure(s, id);
    if t == s { SameTableIsMute(s, t); } else { TellingIsMute(s, t, SnapshotOf(id, t.outputs[id])); }
  }

  lemma RetireIsMute(s: Sys, id: nat)
    requires id in s.outputs && 0 < id < s.ctl.nextId
    ensures Mute(s, Retire(s, id))
  {
    hide Mute;
    var t := Retire(s, id);
    if t.told == s.told { SameTableIsMute(s, t); } else {
      TellingIsMute(s, t, SnapshotOf(id, s.outputs[id].(state := Retired)));
    }
  }

  lemma FinishOutputIsMute(s: Sys, id: nat, cause: Option<Fault>, generation: Option<nat>, closing: Option<Fault>)
    requires Numbered(s)
    ensures Mute(s, FinishOutput(s, id, cause, generation, closing))
  {
    hide Mute, DrainOutput;
    if id in s.outputs && s.finishing && cause.None? && s.outputs[id].branch.state.Active? {
      DrainIsMute(s, id, generation, closing);
    } else {
      SameTableIsMute(s, FinishOutput(s, id, cause, generation, closing));
    }
  }

  // ---- Which outputs may still be reported Running ----

  // The output is about to be prepared, is being prepared, or waits.
  predicate Coming(s: Sys, id: nat) {
    || s.ctl.pending == Some(Change(id, true))
    || (s.prep.Some? && s.prep.value.id == id)
    || (id in s.outputs && s.outputs[id].state.Waiting?)
  }

  // Only a new identifier can be one that was not coming before.
  ghost predicate NoneComes(s: Sys, t: Sys) {
    && s.ctl.nextId <= t.ctl.nextId
    && forall id: nat :: Coming(t, id) ==> Coming(s, id) || id >= s.ctl.nextId
  }

  // No output starts to wait, no command comes and the preparation stays or goes.
  ghost predicate NoneWaits(s: Sys, t: Sys) {
    && t.ctl.nextId == s.ctl.nextId && (t.ctl.pending == s.ctl.pending || t.ctl.pending.None?)
    && (t.prep.Some? ==> s.prep.Some? && t.prep.value.id == s.prep.value.id)
    && forall id :: id in t.outputs && t.outputs[id].state.Waiting? ==> id in s.outputs && s.outputs[id].state.Waiting?
  }

  lemma NoneWaitsNoneComes(s: Sys, t: Sys)
    requires NoneWaits(s, t)
    ensures NoneComes(s, t)
  {
  }

  lemma RejectWaits(s: Sys, id: nat, f: Fault)
    ensures NoneWaits(s, Reject(s, id, f)) && Reject(s, id, f).ctl.pending == s.ctl.pending
  {
  }

  lemma NotifyWaits(s: Sys)
    ensures NoneWaits(s, Notify(s)) && Notify(s).prep == s.prep && Notify(s).ctl.pending == s.ctl.pending
  {
  }

  lemma DrainWaits(s: Sys, id: nat, generation: Option<nat>, closing: Option<Fault>)
    requires id in s.outputs
    ensures NoneWaits(s, DrainOutput(s, id, generation, closing))
  {
  }

  lemma BeginWaits(s: Sys, id: nat, r: BeginReading)
    requires s.prep.None?
    ensures var t := BeginPreparation(s, id, r);
            && t.ctl.nextId == s.ctl.nextId && t.ctl.pending == s.ctl.pending && t.outputs == s.outputs
            && (t.prep.Some? ==> t.prep.value.id == id)
  {
    hide Reject;
    BeginIsQuiet(s, id, r);
    if r.missing.Some? {
      RejectWaits(s, id, r.missing.value);
    } else if r.noWorker.Some? {
      RejectWaits(Begun(s, id, r).(prep := None), id, r.noWorker.value);
    }
  }

  lemma TakeComes(s: Sys, r: TakeReading)
    ensures NoneComes(s, Take(s, r))
  {
    if CanTake(s) {
      var change := C.TakeChange(s.ctl).1.value;
      var t := Taken(s);
      hide Reject, BeginPreparation, Notify, DrainOutput;
      if change.addition {
        BeginWaits(t, change.id, r.begin);
        NotifyWaits(BeginPreparation(t, change.id, r.begin));
        NotifyIsQuiet(BeginPreparation(t, change.id, r.begin));
      } else if change.id !in s.outputs {
        RejectWaits(t, change.id, Fault(NO_BRANCH, Drain));
        NotifyWaits(Reject(t, change.id, Fault(NO_BRANCH, Drain)));
      } else {
        DrainWaits(t, change.id, r.generation, r.closing);
      }
    }
  }

  lemma FinishWaits(s: Sys)
    ensures NoneWaits(s, BeginFinish(s))
  {
    hide Reject, Notify;
    var t := s.(finishing := true, ctl := C.SetEnabled(s.ctl, false));
    var (ctl, change) := C.TakeChange(t.ctl);
    if change.Some? {
      RejectWaits(t.(ctl := ctl), change.value.id, Fault(CANCELLED, Publication));
      NotifyWaits(Reject(t.(ctl := ctl), change.value.id, Fault(CANCELLED, Publication)));
    } else {
      NotifyWaits(t);
    }
  }

  lemma PlannedWaits(s: Sys, r: AdmitReading)
    ensures NoneWaits(s, LookAtPlanned(s, r))
  {
    if s.prep.Some? && s.prep.value.exchange.stage.Planned? {
      hide Reject, Admission;
      PlannedEffect(s, r);
      var verdict := Admission(s, s.prep.value, r);
      if verdict.Failure? {
        RejectIsQuiet(Judging(s, r), s.prep.value.id, verdict.error);
        RejectWaits(Judging(s, r), s.prep.value.id, verdict.error);
      }
    }
  }

  lemma ConstructedComes(s: Sys, r: PublishReading)
    ensures NoneComes(s, LookAtConstructed(s, r))
  {
    if s.prep.Some? && s.prep.value.exchange.stage.Constructed? {
      hide Settle, NewOutput;
      SettleEffect(s, r);
      SettleOutputs(s, r);
    }
  }

  lemma PollGroupWaits(s: Sys, g: nat, r: GroupReading)
    ensures NoneWaits(s, PollGroup(s, g, r))
  {
    hide Polled, EraseGroup;
    if g in s.groups {
      var u := s.(unpolled := s.unpolled - {g});
      EraseWaits(if s.groups[g].branch.fault.Some? then FailMembers(u, g) else u, g, Polled(s.groups[g], r).0);
    }
  }

  lemma EraseWaits(s: Sys, g: nat, group: Group)
    ensures NoneWaits(s, EraseGroup(s, g, group))
  {
  }

  lemma LookWaits(s: Sys, id: nat, r: OutputReading)
    requires id in s.outputs
    ensures var t := NoteFailure(PollBranch(FailOverdue(s, id, r), id, r).0, id); NoneWaits(s, t) && id in t.outputs
  {
  }

  lemma RetireWaits(s: Sys, id: nat)
    requires id in s.outputs
    ensures NoneWaits(s, Retire(s, id))
  {
  }

  lemma FinishOutputWaits(s: Sys, id: nat, cause: Option<Fault>, generation: Option<nat>, closing: Option<Fault>)
    ensures NoneWaits(s, FinishOutput(s, id, cause, generation, closing))
  {
    hide DrainOutput;
    if id in s.outputs { DrainWaits(s, id, generation, closing); }
  }

  // ---- One step ----

  /** The observer was told at most once that an output runs, and not of one that is still coming. */
  ghost predicate Observed(s: Sys) {
    && (forall id: nat :: Runs(s.told, id) <= 1)
    && (forall id: nat :: Runs(s.told, id) > 0 ==> 0 < id < s.ctl.nextId && !Coming(s, id))
    && Linked(s.ctl, s.told)
  }

  lemma MuteKeepsObserved(s: Sys, t: Sys)
    requires Observed(s) && Mute(s, t) && NoneComes(s, t)
    ensures Observed(t)
  {
    hide Linked;
    forall id: nat | Runs(t.told, id) > 0 ensures 0 < id < t.ctl.nextId && !Coming(t, id) {
      assert Runs(s.told, id) > 0;
    }
  }

  lemma CallKeepsObserved(s: Sys, step: Step)
    requires Observed(s) && (step.CallAdd? || step.CallRemove? || step.CallStop?)
    ensures Observed(Apply(s, step))
  {
    var t := Apply(s, step);
    assert t.told == s.told && s.ctl.nextId <= t.ctl.nextId;
    assert Linked(t.ctl, t.told) by {
      forall e | C.Occurs(s.told, e) && e.id in t.ctl.table ensures C.Occurs(t.ctl.history, e) {
        assert e.id < s.ctl.nextId;
      }
    }
  }

  lemma BranchStepKeepsObserved(s: Sys, step: Step)
    requires Observed(s) && (step.OutputFails? || step.GroupFails? || step.Count?)
    ensures Observed(Apply(s, step))
  {
    hide Apply, Mute, Observed;
    BranchStepEffect(s, step);
    var t := Apply(s, step);
    SameTableIsMute(s, t);
    BranchStepWaits(s, t);
    NoneWaitsNoneComes(s, t);
    MuteKeepsObserved(s, t);
  }

  lemma BranchStepWaits(s: Sys, t: Sys)
    requires OnlyBranches(s, t)
    ensures NoneWaits(s, t)
  {
  }

  lemma QuietKeepsObserved(s: Sys, t: Sys)
    requires Observed(s) && Mute(s, t) && NoneWaits(s, t)
    ensures Observed(t)
  {
    hide Observed, Mute;
    NoneWaitsNoneComes(s, t);
    MuteKeepsObserved(s, t);
  }

  // A promotion is the one thing that reports Running.
  lemma PromoteKeepsObserved(s: Sys, id: nat, r: OutputReading)
    requires Slot(s) && Listed(s) && Observed(s) && id in s.outputs
    ensures Observed(Promote(s, id, r))
  {
    PromoteShape(s, id, r);
    hide Promote;
    var t := s.(clock := s.clock + r.first + r.second);
    var u := Promote(s, id, r);
    if u == t {
      SameTableIsMute(s, t);
      QuietKeepsObserved(s, t);
    } else {
      assert OutputListed(s, id);
      PromotionKeepsObserved(s, u, id, SnapshotOf(id, Promoted(s.outputs[id])));
    }
  }

  lemma PromotionKeepsObserved(s: Sys, u: Sys, id: nat, snapshot: Snapshot)
    requires Observed(s) && id in s.outputs && s.outputs[id].state.Waiting? && s.prep.None? && 0 < id < s.ctl.nextId
    requires snapshot.id == id && snapshot.state.Running?
    requires s.ctl.pending.Some? && s.ctl.pending.value.addition ==> s.ctl.pending.value.id != id
    requires u.told == C.Then(s.told, snapshot) && u.prep == s.prep
    requires var c := C.Publish(s.ctl, snapshot);
             u.ctl.table == c.table && u.ctl.history == c.history && u.ctl.nextId == c.nextId
    requires u.ctl.pending == s.ctl.pending
    requires u.outputs == s.outputs[id := Promoted(s.outputs[id])]
    ensures Observed(u)
  {
    assert Coming(s, id) && Runs(s.told, id) == 0;
    PublishKeepsLink(s.ctl, s.told, snapshot);
    hide C.Publish;
    assert forall other: nat :: Coming(u, other) ==> Coming(s, other) && other != id;
    assert forall other: nat :: Runs(u.told, other) == Runs(s.told, other) + if other == id then 1 else 0;
  }

  // Everything the observer was told of a listed output before its promotion was Preparing or Waiting.
  lemma RunningIsEarly(c: C.Control, told: C.History, snapshot: Snapshot)
    requires Linked(c, told) && Early(told) && snapshot.id in c.table && snapshot.state.Running?
    requires C.Ordered(C.Publish(c, snapshot).history)
    ensures Early(C.Then(told, snapshot))
  {
    var h := C.Publish(c, snapshot).history;
    forall a, b | C.Before(C.Then(told, snapshot), a, b) && a.id == b.id && b.state.Running?
      ensures a.state.Preparing? || a.state.Waiting?
    {
      if !C.Before(told, a, b) {
        assert b == snapshot && C.Occurs(told, a);
        assert C.Before(h, a, b);
        C.OrderedPairs(h, a, b);
      }
    }
  }

  // After the promotion nothing more is reported Running.
  lemma LookKeepsObserved(s: Sys, id: nat, r: OutputReading)
    requires Observed(s) && id in s.outputs && 0 < id < s.ctl.nextId
    ensures var t := NoteFailure(PollBranch(FailOverdue(s, id, r), id, r).0, id);
            Observed(t) && id in t.outputs && t.ctl.nextId == s.ctl.nextId
  {
    hide FailOverdue, PollBranch, NoteFailure, Observed, Mute, NoneWaits;
    var b := FailOverdue(s, id, r);
    OverdueIsQuiet(s, id, r);
    PollBranchIsQuiet(b, id, r);
    var c := PollBranch(b, id, r).0;
    LookTellsNothing(s, id, r);
    SameTableIsMute(s, c);
    NoteIsMute(c, id);
    MuteTwice(s, c, NoteFailure(c, id));
    LookWaits(s, id, r);
    NoteIsQuiet(c, id);
    QuietKeepsObserved(s, NoteFailure(c, id));
  }

  lemma RetireKeepsObserved(s: Sys, id: nat)
    requires Observed(s) && id in s.outputs && 0 < id < s.ctl.nextId
    ensures Observed(Retire(s, id))
  {
    hide Retire, Observed, Mute, NoneWaits;
    RetireIsMute(s, id);
    RetireWaits(s, id);
    RetireEffect(s, id);
    QuietKeepsObserved(s, Retire(s, id));
  }

  lemma PollOutputKeepsObserved(s: Sys, id: nat, r: OutputReading)
    requires Valid(s) && Observed(s)
    ensures Observed(PollOutput(s, id, r))
  {
    hide Promote, FailOverdue, PollBranch, NoteFailure, Retire, Observed, Slot, Grouped, Drawn, Listed;
    if id in s.outputs && s.unpolled == {} {
      ValidIsNumbered(s);
      var a := Promote(s, id, r);
      PromoteKeepsObserved(s, id, r);
      PromoteIsQuiet(s, id, r);
      PromoteKeepsIds(s, id, r);
      OverdueIsQuiet(a, id, r);
      PollBranchIsQuiet(FailOverdue(a, id, r), id, r);
      LookKeepsObserved(a, id, r);
      RetireKeepsObserved(NoteFailure(PollBranch(FailOverdue(a, id, r), id, r).0, id), id);
    }
  }

  lemma PromoteKeepsIds(s: Sys, id: nat, r: OutputReading)
    requires id in s.outputs
    ensures Promote(s, id, r).ctl.nextId == s.ctl.nextId
  {
    hide Promote;
    PromoteShape(s, id, r);
  }

  lemma LookTellsNothing(s: Sys, id: nat, r: OutputReading)
    requires id in s.outputs
    ensures var t := PollBranch(FailOverdue(s, id, r), id, r).0; t.told == s.told && t.ctl == s.ctl
    ensures NoteFailure(PollBranch(FailOverdue(s, id, r), id, r).0, id).ctl.nextId == s.ctl.nextId
  {
  }

  // The steps of the control thread other than the poll of an output.
  predicate Controls(step: Step) {
    || step.TakeStep? || step.Planned? || step.Constructed? || step.PollGroupStep? || step.FinishStep?
    || step.FinishOutputStep? || step.NotifyStep? || step.Budget?
  }

  lemma ControlIsMute(s: Sys, step: Step)
    requires Numbered(s) && Controls(step)
    ensures Mute(s, Apply(s, step))
  {
    hide Mute, Numbered, Take, LookAtPlanned, LookAtConstructed, PollGroup, BeginFinish, FinishOutput, Notify, Expire;
    match step
    case TakeStep(r) => TakeIsMute(s, r);
    case Planned(r) => PlannedIsMute(s, r);
    case Constructed(r) => ConstructedIsMute(s, r);
    case PollGroupStep(g, r) => PollGroupIsMute(s, g, r);
    case FinishStep => FinishIsMute(s);
    case FinishOutputStep(id, cause, generation, closing) => FinishOutputIsMute(s, id, cause, generation, closing);
    case NotifyStep => NotifiedIsMute(s);
    case Budget(elapsed) => ExpireIsMute(s, elapsed);
  }

  lemma ControlComes(s: Sys, step: Step)
    requires Controls(step)
    ensures NoneComes(s, Apply(s, step))
  {
    hide NoneWaits, NoneComes, Take, LookAtPlanned, LookAtConstructed, PollGroup, BeginFinish, FinishOutput, Notify,
         Expire;
    match step
    case TakeStep(r) => TakeComes(s, r);
    case Constructed(r) => ConstructedComes(s, r);
    case Planned(r) =>
      PlannedWaits(s, r);
      NoneWaitsNoneComes(s, LookAtPlanned(s, r));
    case PollGroupStep(g, r) =>
      PollGroupWaits(s, g, r);
      NoneWaitsNoneComes(s, PollGroup(s, g, r));
    case FinishStep =>
      FinishWaits(s);
      NoneWaitsNoneComes(s, BeginFinish(s));
    case FinishOutputStep(id, cause, generation, closing) =>
      FinishOutputWaits(s, id, cause, generation, closing);
      NoneWaitsNoneComes(s, FinishOutput(s, id, cause, generation, closing));
    case NotifyStep =>
      NotifyWaits(s);
      NoneWaitsNoneComes(s, Notify(s));
    case Budget(elapsed) =>
      ExpireWaits(s, elapsed);
      NoneWaitsNoneComes(s, Expire(s, elapsed));
  }

  lemma ControlKeepsObserved(s: Sys, step: Step)
    requires Numbered(s) && Observed(s) && Controls(step)
    ensures Observed(Apply(s, step))
  {
    hide Apply, Observed, Mute, NoneComes, Numbered;
    ControlIsMute(s, step);
    ControlComes(s, step);
    MuteKeepsObserved(s, Apply(s, step));
  }

  lemma StepKeepsObserved(s: Sys, step: Step)
    requires Valid(s) && Observed(s)
    ensures Observed(Apply(s, step))
  {
    hide Observed, Valid, Numbered, PollOutput, WorkerTurn, Reap, Take, LookAtPlanned, LookAtConstructed, PollGroup,
         BeginFinish, FinishOutput, Notify, Expire, Traffic, OutputFault, GroupFault;
    ValidIsNumbered(s);
    match step
    case PollOutputStep(id, r) => PollOutputKeepsObserved(s, id, r);
    case Work(r) => WorkKeepsObserved(s, r);
    case Collect => CollectKeepsObserved(s);
    case CallAdd => CallKeepsObserved(s, step);
    case CallRemove(_) => CallKeepsObserved(s, step);
    case CallStop => CallKeepsObserved(s, step);
    case OutputFails(_, _) => BranchStepKeepsObserved(s, step);
    case GroupFails(_, _, _) => BranchStepKeepsObserved(s, step);
    case Count(_, _, _) => BranchStepKeepsObserved(s, step);
    case _ => ControlKeepsObserved(s, step);
  }

  lemma NotifiedIsMute(s: Sys)
    requires Numbered(s)
    ensures Mute(s, Notify(s))
  {
    NotifyIsMute(s);
  }

  lemma ExpireWaits(s: Sys, elapsed: nat)
    ensures NoneWaits(s, Expire(s, elapsed))
  {
  }

  lemma WorkKeepsObserved(s: Sys, r: WorkerReading)
    requires Observed(s)
    ensures Observed(WorkerTurn(s, r))
  {
    hide WorkerTurn, Mute, Observed;
    WorkerEffect(s, r);
    SameTableIsMute(s, WorkerTurn(s, r));
    QuietKeepsObserved(s, WorkerTurn(s, r));
  }

  lemma CollectKeepsObserved(s: Sys)
    requires Observed(s)
    ensures Observed(Reap(s))
  {
    hide Mute, Observed;
    SameTableIsMute(s, Reap(s));
    QuietKeepsObserved(s, Reap(s));
  }

  // ---- Whole runs ----

  /** Over whole runs, whatever else the observer is told (a retirement may be reported twice), it is told
      at most once that an output runs. */
  lemma {:induction false} RunKeepsObserved(s: Sys, steps: seq<Step>)
    requires Valid(s) && Observed(s)
    ensures Observed(Run(s, steps))
    decreases |steps|
  {
    hide Apply, Valid, Observed;
    if steps != [] {
      StepKeepsValid(s, steps[0]);
      StepKeepsObserved(s, steps[0]);
      RunKeepsObserved(Apply(s, steps[0]), steps[1..]);
    }
  }

  // ---- What is reported before Running ----

  // The step promotes an output that is no longer listed.
  predicate PromotesUnlisted(s: Sys, step: Step) {
    && step.PollOutputStep? && step.id in s.outputs && s.unpolled == {} && step.id !in s.ctl.table
    && Promote(s, step.id, step.outputReading).told != s.told
  }

  lemma LongerIsNotEarlier(h: C.History, e: Snapshot)
    requires Early(C.Then(h, e))
    ensures Early(h)
  {
    assert forall a, b :: C.Before(h, a, b) ==> C.Before(C.Then(h, e), a, b);
  }

  lemma UnlistedIsLate(c: C.Control, told: C.History, snapshot: Snapshot)
    requires Linked(c, told) && 0 < snapshot.id < c.nextId && snapshot.id !in c.table && snapshot.state.Running?
    ensures !Early(C.Then(told, snapshot))
  {
    RetirementOccurs(told, snapshot.id);
    var e :| C.Occurs(told, e) && e.id == snapshot.id && e.state.Retired?;
    assert C.Before(C.Then(told, snapshot), e, snapshot);
  }

  lemma PromoteEarly(s: Sys, id: nat, r: OutputReading)
    requires Slot(s) && Listed(s) && Linked(s.ctl, s.told) && id in s.outputs
    ensures Early(Promote(s, id, r).told) <==>
            Early(s.told) && (Promote(s, id, r).told == s.told || id in s.ctl.table)
  {
    PromoteShape(s, id, r);
    PromoteKeepsListed(s, id, r);
    assert OutputListed(s, id);
    hide Promote, Early, Linked, C.Sound, C.Ordered;
    var u := Promote(s, id, r);
    if u.told != s.told {
      var snapshot := SnapshotOf(id, Promoted(s.outputs[id]));
      if id !in s.ctl.table {
        UnlistedIsLate(s.ctl, s.told, snapshot);
      } else {
        if Early(s.told) { RunningIsEarly(s.ctl, s.told, snapshot); }
        if Early(u.told) { LongerIsNotEarlier(s.told, snapshot); }
      }
    }
  }

  lemma PollOutputEarly(s: Sys, id: nat, r: OutputReading)
    requires Valid(s) && Linked(s.ctl, s.told)
    ensures Early(PollOutput(s, id, r).told) <==> Early(s.told) && !PromotesUnlisted(s, PollOutputStep(id, r))
  {
    hide Promote, FailOverdue, PollBranch, NoteFailure, Retire, Slot, Grouped, Drawn, Listed, Early, Linked;
    if id in s.outputs && s.unpolled == {} {
      ValidIsNumbered(s);
      var a := Promote(s, id, r);
      PromoteEarly(s, id, r);
      PromoteIsQuiet(s, id, r);
      PromoteKeepsIds(s, id, r);
      OverdueIsQuiet(a, id, r);
      var c := PollBranch(FailOverdue(a, id, r), id, r).0;
      PollBranchIsQuiet(FailOverdue(a, id, r), id, r);
      LookTellsNothing(a, id, r);
      NoteIsMute(c, id);
      NoteIsQuiet(c, id);
      RetireIsMute(NoteFailure(c, id), id);
    }
  }

  /** A step keeps the reports before Running to Preparing and Waiting exactly if it does not promote an
      output that is no longer listed. */
  lemma StepEarly(s: Sys, step: Step)
    requires Valid(s) && Linked(s.ctl, s.told)
    ensures Early(Apply(s, step).told) <==> Early(s.told) && !PromotesUnlisted(s, step)
  {
    ValidIsNumbered(s);
    if Controls(step) {
      hide Apply, Valid, Early;
      ControlIsMute(s, step);
    } else if step.PollOutputStep? {
      hide PollOutput, Valid, Early;
      PollOutputEarly(s, step.id, step.outputReading);
    } else {
      hide Apply, Valid, Early;
      OthersTellNothing(s, step);
    }
  }

  lemma OthersTellNothing(s: Sys, step: Step)
    requires !Controls(step) && !step.PollOutputStep?
    ensures Apply(s, step).told == s.told
  {
    hide WorkerTurn, Traffic, OutputFault, GroupFault;
    match step
    case Work(r) => WorkerEffect(s, r);
    case OutputFails(_, _) => BranchStepEffect(s, step);
    case GroupFails(_, _, _) => BranchStepEffect(s, step);
    case Count(_, _, _) => BranchStepEffect(s, step);
    case _ =>
  }

  predicate NeverPromotesUnlisted(s: Sys, steps: seq<Step>)
    decreases |steps|
  {
    steps == [] || (!PromotesUnlisted(s, steps[0]) && NeverPromotesUnlisted(Apply(s, steps[0]), steps[1..]))
  }

  /** Over whole runs: only Preparing and Waiting are reported of an output before Running if and only if
      no output is promoted that is no longer listed. */
  lemma {:induction false} RunEarly(s: Sys, steps: seq<Step>)
    requires Valid(s) && Observed(s)
    ensures Early(Run(s, steps).told) <==> Early(s.told) && NeverPromotesUnlisted(s, steps)
    decreases |steps|
  {
    hide Apply, Valid, Early, PromotesUnlisted, Linked;
    if steps != [] {
      StepEarly(s, steps[0]);
      StepKeepsValid(s, steps[0]);
      StepKeepsObserved(s, steps[0]);
      RunEarly(Apply(s, steps[0]), steps[1..]);
    }
  }

  lemma FinishingStays(s: Sys, steps: seq<Step>)
    requires s.finishing
    ensures Run(s, steps).finishing
  {
    FinishingRunShrinks(s, steps);
  }

  /** Before finish() every output is listed, so it never happens then. */
  lemma {:induction false} NotBeforeFinishing(s: Sys, steps: seq<Step>)
    requires Valid(s) && !Run(s, steps).finishing
    ensures NeverPromotesUnlisted(s, steps)
    decreases |steps|
  {
    hide Apply, Valid, Promote;
    if s.finishing { FinishingStays(s, steps); }
    if steps != [] {
      AllListed(s);
      StepKeepsValid(s, steps[0]);
      NotBeforeFinishing(Apply(s, steps[0]), steps[1..]);
    }
  }

  lemma AllListed(s: Sys)
    requires Valid(s) && !s.finishing
    ensures forall id :: id in s.outputs ==> id in s.ctl.table
  {
    forall id | id in s.outputs ensures id in s.ctl.table {
      assert OutputListed(s, id);
    }
  }

  // ---- It does happen while finishing ----

  // The workers of a waiting output exit unasked; and it is found ready.
  const UNASKED_EXIT: OutputReading :=
    OutputReading(0, 0, 0, 0, false, None, None, B.PollReading(true, 0, None), None)

  function Ready(generation: nat): OutputReading {
    OutputReading(0, 0, 0, 0, true, Some(generation), None, B.PollReading(false, 1, None), None)
  }

  // The output's branch is being reclaimed, and nothing else has happened.
  function Exited(s: Sys, id: nat): Sys
    requires id in s.outputs
  {
    var o := s.outputs[id];
    s.(outputs := s.outputs[id := o.(branch := o.branch.(state := B.Retiring, waits := o.branch.waits + 1))])
  }

  lemma UnaskedExit(s: Sys, id: nat)
    requires Untroubled(s, id)
    ensures PollOutput(s, id, UNASKED_EXIT) == Exited(s, id)
  {
    var o := s.outputs[id];
    assert Promote(s, id, UNASKED_EXIT) == s;
    assert FailOverdue(s, id, UNASKED_EXIT) == s;
    assert B.Poll(o.branch, UNASKED_EXIT.poll) ==
           (o.branch.(state := B.Retiring, waits := o.branch.waits + 1), false);
    assert PollBranch(s, id, UNASKED_EXIT) == (Exited(s, id), false);
    assert NoteFailure(Exited(s, id), id) == Exited(s, id);
  }

  lemma FinishErases(s: Sys, id: nat)
    requires s.ctl.pending == Some(Change(id, false)) && !s.ctl.inProgress && s.prep.None?
    requires s.terminalGroup.None? && s.changingGroup.None?
    ensures id !in BeginFinish(s).ctl.table && BeginFinish(s).clock == s.clock && BeginFinish(s).finishing
  {
  }

  lemma ReadyIsPromoted(s: Sys, id: nat)
    requires id in s.outputs && s.unpolled == {} && id !in s.ctl.table && s.prep.None?
    requires var o := s.outputs[id];
             && o.state.Waiting? && o.branch.fault.None? && Before(s.clock, o.deadline)
             && s.clock - o.startedAt < o.startupWait
    ensures PromotesUnlisted(s, PollOutputStep(id, Ready(s.outputs[id].generation)))
  {
    HistoryGrows(s.told, SnapshotOf(id, Promoted(s.outputs[id])));
  }

  function Length(h: C.History): nat {
    if h.Then? then Length(h.past) + 1 else 0
  }

  lemma HistoryGrows(h: C.History, e: Snapshot)
    ensures C.Then(h, e) != h
  {
    assert Length(C.Then(h, e)) == Length(h) + 1;
  }

  // The workers exit unasked, a caller removes the output, the session finishes, and the output, whose
  // branch cannot be drained any more, is found ready.
  function LateReport(id: nat, generation: nat): seq<Step> {
    [PollOutputStep(id, UNASKED_EXIT), CallRemove(id), FinishStep, FinishOutputStep(id, None, None, None),
     PollOutputStep(id, Ready(generation))]
  }

  // The state in which the session has begun to finish.
  function Finishing(s: Sys, id: nat): Sys
    requires id in s.outputs
  {
    var a := Exited(s, id);
    BeginFinish(a.(ctl := a.ctl.(pending := Some(Change(id, false)))))
  }

  lemma FinishingState(s: Sys, id: nat)
    requires Slot(s) && Idle(s) && id in s.outputs
    ensures var t := Finishing(s, id);
            && t.outputs == Exited(s, id).outputs && t.unpolled == s.unpolled && t.prep.None? && t.clock == s.clock
            && id !in t.ctl.table && t.finishing
  {
    var a := Exited(s, id);
    var b := a.(ctl := a.ctl.(pending := Some(Change(id, false))));
    FinishErases(b, id);
    FinishIsQuiet(b);
  }

  lemma LateSteps(s: Sys, id: nat)
    requires Idle(s) && Untroubled(s, id) && id in s.ctl.table
    ensures Apply(s, PollOutputStep(id, UNASKED_EXIT)) == Exited(s, id)
    ensures var a := Exited(s, id);
            Apply(a, CallRemove(id)) == a.(ctl := a.ctl.(pending := Some(Change(id, false))))
  {
    UnaskedExit(s, id);
  }

  lemma StoppedTooLate(s: Sys, id: nat)
    requires id in s.outputs && !s.outputs[id].branch.state.Active?
    ensures Apply(s, FinishOutputStep(id, None, None, None)) == s
  {
  }

  lemma LatePromotion(s: Sys, id: nat)
    requires Valid(s) && Idle(s) && Untroubled(s, id)
    ensures PromotesUnlisted(Finishing(s, id), PollOutputStep(id, Ready(s.outputs[id].generation)))
    ensures var t := Finishing(s, id); Apply(t, FinishOutputStep(id, None, None, None)) == t
  {
    FinishingState(s, id);
    hide Finishing, Valid, PromotesUnlisted, Apply;
    ReadyIsPromoted(Finishing(s, id), id);
    StoppedTooLate(Finishing(s, id), id);
  }

  /** For every waiting output of an idle session there is a run, in the order of finish() itself, in
      which it is reported Running after Retired. */
  lemma ReportsCanComeLate(s: Sys, id: nat, steps: seq<Step>)
    requires Valid(s) && Observed(s) && Idle(s) && Untroubled(s, id) && id in s.ctl.table
    requires steps == LateReport(id, s.outputs[id].generation)
    ensures !Early(Run(s, steps).told)
  {
    LateSteps(s, id);
    LatePromotion(s, id);
    FinishIsApplied(s, id);
    hide Apply, Valid, Observed, Early, PromotesUnlisted, Finishing, Exited, Untroubled, Run;
    RunEarly(s, steps);
    if NeverPromotesUnlisted(s, steps) { UnfoldFive(s, steps); }
  }

  lemma FinishIsApplied(s: Sys, id: nat)
    requires id in s.outputs
    ensures var a := Exited(s, id);
            Apply(a.(ctl := a.ctl.(pending := Some(Change(id, false)))), FinishStep) == Finishing(s, id)
  {
    hide BeginFinish;
  }

  lemma UnfoldFive(s: Sys, steps: seq<Step>)
    requires |steps| == 5 && NeverPromotesUnlisted(s, steps)
    ensures var c := Apply(Apply(Apply(s, steps[0]), steps[1]), steps[2]);
            !PromotesUnlisted(Apply(c, steps[3]), steps[4])
  {
    hide Apply, PromotesUnlisted;
    var one, two, three, four := steps[1..], steps[2..], steps[3..], steps[4..];
    assert one[1..] == two && two[1..] == three && three[1..] == four;
    var a := Apply(s, steps[0]);
    var b := Apply(a, steps[1]);
    var c := Apply(b, steps[2]);
    assert NeverPromotesUnlisted(a, one);
    assert NeverPromotesUnlisted(b, two);
    assert NeverPromotesUnlisted(c, three);
    assert NeverPromotesUnlisted(Apply(c, steps[3]), four);
  }

  lemma InitialIsObserved(shared: set<nat>, encoding: set<nat>, protocol: set<nat>, generation: nat, startedAt: nat,
                          startupWait: nat, traffic: nat, capacity: nat, lease: nat)
    ensures var s := Initial(shared, encoding, protocol, generation, startedAt, startupWait, traffic, capacity, lease);
            Observed(s) && Early(s.told)
  {
    var s := Initial(shared, encoding, protocol, generation, startedAt, startupWait, traffic, capacity, lease);
    var first := SnapshotOf(1, s.outputs[1]);
    assert s.told == C.Then(C.Start, first) && s.ctl.history.entry == first;
    assert forall e :: C.Occurs(s.told, e) <==> e == first;
    assert forall id: nat :: Runs(s.told, id) == 0;
    assert forall a, b :: !C.Before(s.told, a, b);
  }
}
