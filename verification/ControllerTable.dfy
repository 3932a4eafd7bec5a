/** Every step keeps the snapshot table in agreement with the outputs, and its history in order. */
module ControllerTable {
  import opened Wrappers
  import opened OutputTypes
  import opened ControllerModel
  import opened ControllerInvariant
  import opened ControllerEffects
  import opened ControllerSlot
  import C = ControlModel
  import X = PreparationExchange

  // A write about an output that is not live: the outputs' entries are untouched.
  lemma WriteElsewhere(s: Sys, snapshot: Snapshot)
    requires Listed(s) && snapshot.id !in s.outputs && C.InOrder(s.ctl, snapshot)
    requires s.prep.Some? ==> s.prep.value.id != snapshot.id || s.prep.value.exchange.release
    requires s.ctl.pending.Some? ==> s.ctl.pending.value.id != snapshot.id
    ensures Listed(Publish(s, snapshot))
  {
    hide C.Sound, C.Ordered, C.Publish;
    C.PublishKeepsOrder(s.ctl, snapshot);
    PublishTouchesOne(s.ctl, snapshot);
    var t := Publish(s, snapshot);
    forall id | id in s.outputs
      ensures OutputListed(t, id)
    {
      assert OutputListed(s, id);
    }
  }

  lemma PublishTouchesOne(c: C.Control, snapshot: Snapshot)
    ensures var d := C.Publish(c, snapshot);
            && d == c.(table := d.table, history := d.history)
            && (forall id :: id in d.table ==> id in c.table)
            && (forall id :: id in c.table && id != snapshot.id ==> id in d.table && d.table[id] == c.table[id])
  {
  }

  // A branch changed, and perhaps the clock moved on.
  lemma BranchesKeepListed(s: Sys, t: Sys)
    requires Listed(s) && s.clock <= t.clock
    requires t.ctl == s.ctl && t.changing == s.changing && t.prep == s.prep && t.finishing == s.finishing
    requires forall id :: id in s.outputs <==> id in t.outputs
    requires forall id :: id in s.outputs ==>
               SameOutput(s.outputs[id], t.outputs[id]) && t.outputs[id].state == s.outputs[id].state
    ensures Listed(t)
  {
    forall id | id in t.outputs
      ensures OutputListed(t, id)
    {
      assert OutputListed(s, id) && SameOutput(s.outputs[id], t.outputs[id]);
    }
  }

  // An output moves to a new state and is published with it.
  lemma MoveKeepsListed(s: Sys, id: nat, o: Output)
    requires Listed(s) && id in s.outputs && SameOutput(s.outputs[id], o)
    requires C.InOrder(s.ctl, SnapshotOf(id, o)) && !o.state.Preparing? && !o.state.Retired?
    requires o.state.Failed? ==> o.branch.fault.Some?
    requires o.state.Draining? ==> !o.branch.state.Active?
    requires o.state.Running? ==> s.prep.None?
    requires s.prep.Some? && s.prep.value.id == id ==> s.prep.value.exchange.release
    requires s.ctl.pending.Some? && s.ctl.pending.value.addition ==> s.ctl.pending.value.id != id
    ensures Listed(Publish(s.(outputs := s.outputs[id := o]), SnapshotOf(id, o)))
  {
    C.PublishKeepsOrder(s.ctl, SnapshotOf(id, o));
    PublishReplaces(s.ctl, SnapshotOf(id, o));
    hide C.Sound, C.Ordered, C.Publish;
    var t := Publish(s.(outputs := s.outputs[id := o]), SnapshotOf(id, o));
    forall i | i in t.outputs
      ensures OutputListed(t, i)
    {
      assert OutputListed(s, i);
    }
  }

  // A snapshot that is not Retired replaces its entry, if there is one.
  lemma PublishReplaces(c: C.Control, snapshot: Snapshot)
    requires !snapshot.state.Retired?
    ensures var d := C.Publish(c, snapshot);
            && d == c.(table := d.table, history := d.history)
            && d.table == if snapshot.id in c.table then c.table[snapshot.id := snapshot] else c.table
  {
  }

  lemma SlotChangeKeepsListed(s: Sys, t: Sys)
    requires Listed(s) && t.outputs == s.outputs && t.prep == s.prep && t.clock == s.clock && t.finishing == s.finishing
    requires t.ctl == s.ctl.(inProgress := t.ctl.inProgress) && (t.ctl.pending.Some? ==> !t.ctl.inProgress)
    requires t.changing == s.changing
             || (t.changing.None? && (s.changing.value in s.outputs || s.changing.value !in s.ctl.table))
    ensures Listed(t)
  {
    assert forall id :: id in s.outputs ==> OutputListed(s, id) ==> OutputListed(t, id);
  }

  // ---- Steps on outputs ----

  lemma PromoteKeepsListed(s: Sys, id: nat, r: OutputReading)
    requires Slot(s) && Listed(s) && id in s.outputs
    ensures Listed(Promote(s, id, r))
  {
    var t := s.(clock := s.clock + r.first + r.second);
    BranchesKeepListed(s, t);
    PromoteShape(s, id, r);
    if Promote(s, id, r) != t {
      hide Promote;
      assert OutputListed(s, id);
      SlotChangeKeepsListed(t, Freed(t, id));
      MoveKeepsListed(Freed(t, id), id, Promoted(s.outputs[id]));
    }
  }

  lemma OverdueKeepsListed(s: Sys, id: nat, r: OutputReading)
    requires Listed(s) && id in s.outputs
    ensures Listed(FailOverdue(s, id, r))
  {
    OverdueIsQuiet(s, id, r);
    BranchesKeepListed(s, FailOverdue(s, id, r));
  }

  lemma PollBranchKeepsListed(s: Sys, id: nat, r: OutputReading)
    requires Listed(s) && id in s.outputs
    ensures Listed(PollBranch(s, id, r).0)
  {
    PollBranchIsQuiet(s, id, r);
    BranchesKeepListed(s, PollBranch(s, id, r).0);
  }

  lemma NoteKeepsListed(s: Sys, id: nat)
    requires Slot(s) && Listed(s) && id in s.outputs
    ensures Listed(NoteFailure(s, id))
  {
    hide C.Sound, C.Ordered, C.Publish;
    var o := s.outputs[id];
    if o.branch.fault.Some? && !o.state.Failed? {
      var f := o.branch.fault.value;
      assert OutputListed(s, id);
      MoveKeepsListed(s, id, o.(state := Failed, stage := f.stage, error := Some(f.error)));
    }
  }

  lemma ExamineKeepsListed(s: Sys, id: nat, r: OutputReading)
    requires Slot(s) && Listed(s) && id in s.outputs
    ensures Listed(Examine(s, id, r).0) && id in Examine(s, id, r).0.outputs
  {
    PromoteKeepsListed(s, id, r);
    PromoteKeepsSlot(s, id, r);
    var a := Promote(s, id, r);
    OverdueKeepsListed(a, id, r);
    BranchStepsKeepSlot(a, id, r);
    var b := FailOverdue(a, id, r);
    PollBranchKeepsListed(b, id, r);
    BranchStepsKeepSlot(b, id, r);
    var c := PollBranch(b, id, r).0;
    NoteKeepsListed(c, id);
    NoteIsQuiet(c, id);
  }

  // A retired output leaves; its entry waits for the deferred notification.
  lemma DeferredKeepsListed(s: Sys, id: nat)
    requires Listed(s) && id in s.outputs && s.changing == Some(id)
    ensures Listed(s.(outputs := s.outputs - {id}))
  {
    var t := s.(outputs := s.outputs - {id});
    forall i | i in t.outputs ensures OutputListed(t, i) { assert OutputListed(s, i); }
  }

  // A retired output leaves together with its entry.
  lemma ErasedKeepsListed(s: Sys, id: nat, terminal: Snapshot)
    requires Slot(s) && Listed(s) && id in s.outputs && terminal.id == id && terminal.state.Retired?
    ensures Listed(Publish(s.(outputs := s.outputs - {id}), terminal))
    ensures id !in Publish(s.(outputs := s.outputs - {id}), terminal).ctl.table
  {
    var t := Publish(s.(outputs := s.outputs - {id}), terminal);
    C.PublishKeepsOrder(s.ctl, terminal);
    forall i | i in t.outputs ensures OutputListed(t, i) { assert OutputListed(s, i); }
  }

  lemma RetireKeepsListed(s: Sys, id: nat)
    requires Slot(s) && Listed(s) && id in s.outputs
    ensures Listed(Retire(s, id))
  {
    var terminal := SnapshotOf(id, s.outputs[id].(state := Retired));
    var t := Retire(s, id);
    if t.changing == Some(id) {
      DeferredKeepsListed(s, id);
      SameListed(s.(outputs := s.outputs - {id}), t);
    } else {
      ErasedKeepsListed(s, id, terminal);
      var u := Publish(s.(outputs := s.outputs - {id}), terminal);
      if s.changing == Some(id) {
        assert t.ctl == C.CompleteChange(u.ctl);
        SlotChangeKeepsListed(u, u.(ctl := t.ctl, changing := None));
        SameListed(u.(ctl := t.ctl, changing := None), t);
      } else {
        SameListed(u, t);
      }
    }
  }

  lemma PollOutputKeepsListed(s: Sys, id: nat, r: OutputReading)
    requires Slot(s) && Listed(s)
    ensures Listed(PollOutput(s, id, r))
  {
    if id in s.outputs && s.unpolled == {} {
      ExamineKeepsListed(s, id, r);
      ExamineKeepsSlot(s, id, r);
      var (t, retired) := Examine(s, id, r);
      if retired { RetireKeepsListed(t, id); }
    }
  }

  lemma DrainKeepsListed(s: Sys, id: nat, generation: Option<nat>, closing: Option<Fault>)
    requires Slot(s) && Listed(s) && id in s.outputs
    ensures Listed(DrainOutput(s, id, generation, closing))
  {
    DrainShape(s, id, generation, closing);
    DrainIsQuiet(s, id, generation, closing);
    hide DrainOutput;
    var t := DrainOutput(s, id, generation, closing);
    var o := t.outputs[id];
    if o.state == s.outputs[id].state && t.ctl == s.ctl {
      BranchesKeepListed(s, t);
    } else {
      assert OutputListed(s, id);
      MoveKeepsListed(s, id, o);
    }
  }

  // ---- Steps on groups ----

  lemma AmendKeepsListed(s: Sys, g: nat, f: Option<Fault>)
    requires Slot(s) && Listed(s)
    ensures Listed(AmendTerminal(s, g, f))
  {
    var t := AmendTerminal(s, g, f);
    if t != s {
      var amended := t.terminal.value;
      WriteElsewhere(s, amended.(state := Failed));
    }
  }

  lemma UnusedGroupKeepsListed(s: Sys, g: nat, group: Group)
    requires Slot(s) && Listed(s)
    ensures Listed(EraseGroup(s, g, group))
  {
    hide Listed, AmendTerminal;
    var t := KeepFailure(s, group.branch.fault);
    SameListed(s, t);
    AmendKeepsListed(t, g, group.branch.fault);
    SameListed(AmendTerminal(t, g, group.branch.fault), EraseGroup(s, g, group));
  }

  lemma PollGroupKeepsListed(s: Sys, g: nat, r: GroupReading)
    requires Slot(s) && Listed(s)
    ensures Listed(PollGroup(s, g, r))
  {
    hide Listed, Polled, EraseGroup;
    var u := s.(unpolled := s.unpolled - {g});
    SameListed(s, u);
    if g in s.groups {
      var t := u;
      if s.groups[g].branch.fault.Some? {
        t := FailMembers(u, g);
        FailMembersIsQuiet(u, g);
        BranchesKeepListed(u, t);
      }
      if s.groups[g].outputCount == 0 {
        var (polled, retired) := Polled(s.groups[g], r);
        if retired {
          UnusedGroupKeepsListed(t, g, polled);
        } else {
          SameListed(t, t.(groups := s.groups[g := polled]));
        }
      }
    }
  }

  // ---- Steps on the preparation ----

  // The rejected output is not live, so nothing but its own entry changes.
  lemma RejectKeepsListed(s: Sys, id: nat, f: Fault)
    requires Listed(s) && id !in s.outputs && (s.prep.Some? ==> s.prep.value.exchange.release)
    requires s.ctl.pending.None?
    ensures Listed(Reject(s, id, f))
  {
    WriteElsewhere(s, Snapshot(id, Failed, f.stage, Some(f.error)));
    RejectIsQuiet(s, id, f);
  }

  lemma NotifyKeepsListed(s: Sys)
    requires Listed(s)
    requires s.terminal.Some? ==> s.terminal.value.state.Retired? && s.ctl.pending.None?
    requires s.terminal.Some? ==> s.changing == Some(s.terminal.value.id) || s.changing.None?
    requires s.terminal.Some? ==> s.terminal.value.id !in s.outputs || s.finishing
    ensures Listed(Notify(s))
  {
    var t := Notify(s);
    if t != s {
      var terminal := s.terminal.value;
      C.PublishKeepsOrder(s.ctl, terminal);
      assert t.ctl == C.CompleteChange(C.Publish(s.ctl, terminal));
      forall i | i in t.outputs
        ensures OutputListed(t, i)
      {
        assert OutputListed(s, i);
      }
    }
  }

  lemma TaskReleased(s: Sys)
    requires Listed(s) && s.prep.Some?
    ensures Listed(ReleaseWorker(s))
  {
    forall i | i in s.outputs ensures OutputListed(ReleaseWorker(s), i) { assert OutputListed(s, i); }
  }

  lemma RefusedKeepsListed(s: Sys, f: Fault)
    requires Slot(s) && Listed(s) && s.prep.Some? && !s.prep.value.exchange.release
    ensures Listed(ReleaseWorker(Reject(s, s.prep.value.id, f)))
  {
    TaskReleased(s);
    RejectKeepsListed(ReleaseWorker(s), s.prep.value.id, f);
    RejectIsQuiet(s, s.prep.value.id, f);
    RejectIsQuiet(ReleaseWorker(s), s.prep.value.id, f);
    SameListed(Reject(ReleaseWorker(s), s.prep.value.id, f), ReleaseWorker(Reject(s, s.prep.value.id, f)));
  }

  // Listed looks at nothing else.
  lemma SameListed(s: Sys, t: Sys)
    requires Listed(s) && t.ctl == s.ctl && t.outputs == s.outputs && t.changing == s.changing
             && t.finishing == s.finishing
    requires t.prep == s.prep && t.clock == s.clock
    ensures Listed(t)
  {
    forall i | i in s.outputs ensures OutputListed(t, i) { assert OutputListed(s, i); }
  }

  lemma TaskMoves(s: Sys, task: Task)
    requires Listed(s) && s.prep.Some?
    requires task.id == s.prep.value.id && task.expired == s.prep.value.expired
             && task.deadline == s.prep.value.deadline
    requires task.exchange.release == s.prep.value.exchange.release
    ensures Listed(s.(prep := Some(task)))
  {
    forall i | i in s.outputs ensures OutputListed(s.(prep := Some(task)), i) { assert OutputListed(s, i); }
  }

  lemma PlannedKeepsListed(s: Sys, r: AdmitReading)
    requires Slot(s) && Listed(s)
    ensures Listed(LookAtPlanned(s, r))
  {
    if s.prep.Some? && s.prep.value.exchange.stage.Planned? {
      PlannedEffect(s, r);
      var task := s.prep.value;
      var verdict := Admission(s, task, r);
      var t := Judging(s, r);
      BranchesKeepListed(s, t);
      if verdict.Failure? {
        RefusedKeepsListed(t, verdict.error);
        RejectIsQuiet(t, task.id, verdict.error);
      } else {
        TaskMoves(t, task.(target := verdict.value, exchange := X.Construct(task.exchange)));
      }
    }
  }

  lemma InsertKeepsListed(s: Sys, r: PublishReading)
    requires s.prep.Some? && s.prep.value.plan.Success? && Target(s.prep.value) in s.groups
    requires Slot(s.(changingGroup := None)) && Listed(s) && !s.prep.value.exchange.release && !s.prep.value.expired
    ensures Listed(ReleaseWorker(InsertOutput(s, s.prep.value, r)))
  {
    var task := s.prep.value;
    var o := NewOutput(task, r);
    var t := ReleaseWorker(InsertOutput(s, task, r));
    C.PublishKeepsOrder(s.ctl, SnapshotOf(task.id, o));
    assert t.ctl == s.ctl || t.ctl == C.Publish(s.ctl, SnapshotOf(task.id, o));
    assert o.state.Waiting? && o.deadline == Some(task.deadline);
    forall i | i in t.outputs
      ensures OutputListed(t, i)
    {
      if i != task.id { assert OutputListed(s, i); }
    }
  }

  // A rejection after the group was registered reads the same in the table.
  lemma NotInsertedKeepsListed(s: Sys, t: Sys, f: Fault)
    requires Slot(s) && Listed(s) && s.prep.Some? && !s.prep.value.exchange.release
    requires t == s.(groups := t.groups, changingGroup := t.changingGroup)
    ensures Listed(ReleaseWorker(Reject(t, s.prep.value.id, f)))
  {
    var id := s.prep.value.id;
    RefusedKeepsListed(s, f);
    RejectIsQuiet(s, id, f);
    RejectIsQuiet(t, id, f);
    SameListed(ReleaseWorker(Reject(s, id, f)), ReleaseWorker(Reject(t, id, f)));
  }

  lemma SettleKeepsListed(s: Sys, r: PublishReading)
    requires Slot(s) && Listed(s) && s.prep.Some? && s.prep.value.exchange.stage.Constructed?
    ensures Settle(s, r).prep == s.prep && Listed(ReleaseWorker(Settle(s, r)))
  {
    SettleEffect(s, r);
    hide Reject, InsertOutput;
    var task := s.prep.value;
    if task.broken.Some? || task.plan.Failure? {
      RefusedKeepsListed(s, if task.broken.Some? then task.broken.value else Fault(CANCELLED, Publication));
    } else if Refusal(s, task, r).Some? {
      RefusedKeepsListed(s, Refusal(s, task, r).value);
    } else {
      var t := JoinGroup(s, task, r);
      if r.ending.OutputNotInserted? {
        NotInsertedKeepsListed(s, t, r.ending.fault);
      } else {
        SameListed(s, t);
        InsertKeepsListed(t, r);
      }
    }
  }

  lemma ConstructedKeepsListed(s: Sys, r: PublishReading)
    requires Slot(s) && Listed(s)
    ensures Listed(LookAtConstructed(s, r))
  {
    if s.prep.Some? && s.prep.value.exchange.stage.Constructed? {
      SettleKeepsListed(s, r);
      SameListed(ReleaseWorker(Settle(s, r)), LookAtConstructed(s, r));
    }
  }

  lemma ExpireKeepsListed(s: Sys, elapsed: nat)
    requires Slot(s) && Listed(s)
    ensures Listed(Expire(s, elapsed))
  {
    var t := Expire(s, elapsed);
    if t != s {
      var task := s.prep.value;
      var snapshot := Snapshot(task.id, Failed, Preparation, Some(EXPIRED));
      C.PublishKeepsOrder(s.ctl, snapshot);
      forall i | i in t.outputs
        ensures OutputListed(t, i)
      {
        assert OutputListed(s, i);
      }
    }
  }

  lemma BeginKeepsListed(s: Sys, id: nat, r: BeginReading)
    requires Listed(s) && s.prep.None? && id !in s.outputs && s.ctl.pending.None? && s.changing == Some(id)
    requires id in s.ctl.table && s.ctl.table[id].state.Preparing?
    ensures Listed(BeginPreparation(s, id, r))
  {
    if r.missing.Some? {
      RejectKeepsListed(s, id, r.missing.value);
    } else {
      var t := Begun(s, id, r).(prep := None);
      BranchesKeepListed(s, s.(clock := t.clock));
      WriteElsewhere(s.(clock := t.clock), Snapshot(id, Preparing, Preparation, None));
      if r.noWorker.Some? {
        RejectKeepsListed(t, id, r.noWorker.value);
      } else {
        forall i | i in t.outputs ensures OutputListed(Begun(s, id, r), i) { assert OutputListed(t, i); }
      }
    }
  }

  lemma TakenListed(s: Sys)
    requires Slot(s) && Listed(s) && CanTake(s)
    ensures Listed(Taken(s)) && Taken(s).ctl.pending.None?
  {
    C.ApplyKeepsSound(s.ctl, C.Take);
    forall i | i in s.outputs ensures OutputListed(Taken(s), i) { assert OutputListed(s, i); }
  }

  lemma TakeKeepsListed(s: Sys, r: TakeReading)
    requires Slot(s) && Listed(s)
    ensures Listed(Take(s, r))
  {
    if CanTake(s) {
      var change := C.TakeChange(s.ctl).1.value;
      var t := Taken(s);
      TakenListed(s);
      if change.addition {
        BeginKeepsListed(t, change.id, r.begin);
        BeginKeepsSlot(t, change.id, r.begin);
        NotifyKeepsListed(BeginPreparation(t, change.id, r.begin));
      } else if change.id !in s.outputs {
        RejectKeepsListed(t, change.id, Fault(NO_BRANCH, Drain));
        RejectDecides(t, change.id, Fault(NO_BRANCH, Drain));
        NotifyKeepsListed(Reject(t, change.id, Fault(NO_BRANCH, Drain)));
      } else {
        DrainKeepsListed(t, change.id, r.generation, r.closing);
      }
    }
  }

  // ---- Finishing ----

  // The rejected command's entry is erased at once, even when its output is still live.
  lemma FinishKeepsListed(s: Sys)
    requires Slot(s) && Listed(s)
    ensures Listed(BeginFinish(s))
  {
    var t := s.(finishing := true, ctl := C.SetEnabled(s.ctl, false));
    C.ApplyKeepsSound(s.ctl, C.Enable(false));
    forall i | i in s.outputs ensures OutputListed(t, i) { assert OutputListed(s, i); }
    assert Listed(t);
    if s.ctl.pending.Some? {
      RejectPendingKeepsListed(t);
    } else {
      NotifyKeepsListed(t);
    }
  }

  // Taking the pending command, failing and retiring it erases its entry, if it has one.
  lemma PendingErased(c: C.Control)
    requires C.Sound(c) && C.Ordered(c.history) && c.pending.Some?
    ensures var id := c.pending.value.id;
            var failed := C.Publish(C.TakeChange(c).0, Snapshot(id, Failed, Publication, Some(CANCELLED)));
            var d := C.CompleteChange(C.Publish(failed, Snapshot(id, Retired, Publication, Some(CANCELLED))));
            && C.Publish(C.CompleteChange(failed), Snapshot(id, Retired, Publication, Some(CANCELLED))) == d
            && C.Sound(d) && C.Ordered(d.history) && d.table == c.table - {id} && d.nextId == c.nextId
            && d.pending.None?
  {
    var id := c.pending.value.id;
    var taken := C.TakeChange(c).0;
    var failed := Snapshot(id, Failed, Publication, Some(CANCELLED));
    C.ApplyKeepsSound(c, C.Take);
    C.PublishKeepsOrder(taken, failed);
    C.PublishKeepsOrder(C.Publish(taken, failed), Snapshot(id, Retired, Publication, Some(CANCELLED)));
  }

  lemma RejectPendingKeepsListed(s: Sys)
    requires Slot(s) && Listed(s) && s.finishing && s.ctl.pending.Some?
    ensures Listed(Notify(Reject(s.(ctl := C.TakeChange(s.ctl).0), s.ctl.pending.value.id,
                                 Fault(CANCELLED, Publication))))
  {
    var id := s.ctl.pending.value.id;
    PendingErased(s.ctl);
    var u := Reject(s.(ctl := C.TakeChange(s.ctl).0), id, Fault(CANCELLED, Publication));
    var t := Notify(u);
    assert t.ctl.table == s.ctl.table - {id};
    forall i | i in t.outputs
      ensures OutputListed(t, i)
    {
      assert OutputListed(s, i);
    }
  }

  lemma FinishOutputKeepsListed(s: Sys, id: nat, cause: Option<Fault>, generation: Option<nat>, closing: Option<Fault>)
    requires Slot(s) && Listed(s)
    ensures Listed(FinishOutput(s, id, cause, generation, closing))
  {
    var t := FinishOutput(s, id, cause, generation, closing);
    if id in s.outputs && s.finishing && cause.None? && s.outputs[id].branch.state.Active? {
      DrainKeepsListed(s, id, generation, closing);
    } else {
      BranchesKeepListed(s, t);
    }
  }

  // ---- Foreign steps ----

  lemma CallKeepsListed(s: Sys, step: Step)
    requires Slot(s) && Listed(s) && (step.CallAdd? || step.CallRemove? || step.CallStop?)
    ensures Listed(Apply(s, step))
  {
    var op := if step.CallAdd? then C.Add else if step.CallRemove? then C.Remove(step.id) else C.Stop;
    C.ApplyKeepsSound(s.ctl, op);
    var t := Apply(s, step);
    assert t == s.(ctl := C.Apply(s.ctl, op));
    forall i | i in s.outputs
      ensures OutputListed(t, i)
    {
      assert OutputListed(s, i);
    }
  }

  lemma WorkKeepsListed(s: Sys, r: WorkerReading)
    requires Listed(s)
    ensures Listed(WorkerTurn(s, r))
  {
    WorkerEffect(s, r);
    if s.prep.Some? { TaskMoves(s, WorkerTurn(s, r).prep.value); }
  }

  lemma ForeignKeepsListed(s: Sys, step: Step)
    requires Slot(s) && Listed(s) && (step.OutputFails? || step.GroupFails? || step.Count?)
    ensures Listed(Apply(s, step))
  {
    BranchStepEffect(s, step);
    BranchesKeepListed(s, Apply(s, step));
  }

  lemma {:induction false} StepKeepsListed(s: Sys, step: Step)
    requires Slot(s) && Listed(s)
    ensures Listed(Apply(s, step))
  {
    hide Listed, Expire, LookAtPlanned, LookAtConstructed, PollGroup, PollOutput, Take, BeginFinish, FinishOutput,
         Notify, WorkerTurn;
    match step
    case CallAdd => CallKeepsListed(s, step);
    case CallRemove(_) => CallKeepsListed(s, step);
    case CallStop => CallKeepsListed(s, step);
    case Work(r) => WorkKeepsListed(s, r);
    case Budget(elapsed) => ExpireKeepsListed(s, elapsed);
    case Planned(r) => PlannedKeepsListed(s, r);
    case Constructed(r) => ConstructedKeepsListed(s, r);
    case Collect => CollectKeepsListed(s);
    case PollGroupStep(g, r) => PollGroupKeepsListed(s, g, r);
    case PollOutputStep(id, r) => PollOutputKeepsListed(s, id, r);
    case NotifyStep => NotifyKeepsListed(s);
    case TakeStep(r) => TakeKeepsListed(s, r);
    case FinishStep => FinishKeepsListed(s);
    case FinishOutputStep(id, cause, generation, closing) =>
      FinishOutputKeepsListed(s, id, cause, generation, closing);
    case _ => ForeignKeepsListed(s, step);
  }

  lemma CollectKeepsListed(s: Sys)
    requires Listed(s)
    ensures Listed(Reap(s))
  {
    forall i | i in s.outputs ensures OutputListed(Reap(s), i) { assert OutputListed(s, i); }
  }
}
