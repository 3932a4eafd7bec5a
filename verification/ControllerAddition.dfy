/** An addition that nothing stands in the way of succeeds: the output is admitted, constructed, published and
    runs, within a bounded number of polls. */
module ControllerAddition {
  import opened Wrappers
  import opened OutputTypes
  import opened ControllerModel
  import opened ControllerInvariant
  import opened ControllerEffects
  import opened ControllerRuns
  import opened ControllerRelease
  import opened ControllerHolding
  import opened ControllerHistory
  import opened ControllerPoll
  import opened ControllerProgress
  import opened ControllerLiveness
  import opened ControllerMoves
  import opened ControllerPromotion
  import opened ControllerRemoval
  import opened ControllerAdmission
  import B = RuntimeBranch
  import C = ControlModel
  import X = PreparationExchange

  // ---- An undisturbed session ----

  // The step fails, removes and stops nothing.
  predicate Gentle(step: Step) {
    match step
    case OutputFails(_, _) => false
    case GroupFails(_, _, _) => false
    case CallRemove(_) => false
    case FinishStep => false
    case FinishOutputStep(_, _, _, _) => false
    case PollOutputStep(_, r) => Smooth(r) && !r.poll.early
    case _ => true
  }

  // A group that is in use and running.
  predicate Serving(group: Group) {
    group.outputCount > 0 && group.branch.state.Active? && group.branch.fault.None?
  }

  // Every output is well, and in time until then; every group serves.
  ghost predicate Tranquil(s: Sys, until: nat) {
    && !s.finishing
    && (forall id :: id in s.outputs ==> Well(s, id) && InTime(s.outputs[id], until))
    && (forall g :: g in s.groups ==> Serving(s.groups[g]))
  }

  lemma GentleSpares(step: Step, id: nat, g: nat)
    requires Gentle(step)
    ensures Spares(step, id, g)
  {
  }

  lemma OutputStaysTranquil(s: Sys, step: Step, until: nat, id: nat)
    requires Valid(s) && Tranquil(s, until) && Gentle(step) && Apply(s, step).clock <= until && id in s.outputs
    ensures var t := Apply(s, step);
            && Thrives(s, t, id) && InTime(t.outputs[id], until) && t.outputs[id].groupId == s.outputs[id].groupId
  {
    hide Apply, Valid;
    GentleSpares(step, id, s.outputs[id].groupId);
    EarlierIsInTime(s.outputs[id], s.outputs[id], Apply(s, step).clock, until);
    StepThrives(s, step, id);
    EarlierIsInTime(s.outputs[id], Apply(s, step).outputs[id], Apply(s, step).clock, until);
  }

  lemma ServedBy(s: Sys, g: nat) returns (id: nat)
    requires Valid(s) && g in s.groups && s.groups[g].outputCount > 0
    ensures id in s.outputs && s.outputs[id].groupId == g
  {
    var members := Members(s.outputs, g);
    id :| id in members;
  }

  // The branch of a serving group that nobody fails keeps serving.
  lemma BranchServes(s: Sys, step: Step, g: nat)
    requires g in s.groups && Serving(s.groups[g]) && Gentle(step)
    ensures MovedBranch(s, step, g).state.Active? && MovedBranch(s, step, g).fault.None? && !GroupGoesBy(s, step, g)
  {
    hide Polled;
  }

  lemma GroupKeepsServing(s: Sys, step: Step, until: nat, g: nat)
    requires Valid(s) && Tranquil(s, until) && Gentle(step) && Apply(s, step).clock <= until && g in s.groups
    ensures g in Apply(s, step).groups && Serving(Apply(s, step).groups[g])
    ensures Apply(s, step).groups[g].generation == s.groups[g].generation
  {
    hide Apply, Valid, MovedBranch, Thrives, Well, InTime, Gentle, GroupGoesBy;
    var id := ServedBy(s, g);
    StepKeepsValid(s, step);
    OutputStaysTranquil(s, step, until, id);
    StepMovesGroup(s, step, g);
    BranchServes(s, step, g);
    ThrivesIsThere(s, Apply(s, step), id);
    MemberCounts(Apply(s, step), id);
  }

  lemma ThrivesIsThere(s: Sys, t: Sys, id: nat)
    requires id in s.outputs && Thrives(s, t, id)
    ensures id in t.outputs && t.outputs[id].groupId == s.outputs[id].groupId
  {
  }

  // A gentle step that publishes nothing leaves the session tranquil, with the same outputs and graph.
  lemma StaysTranquil(s: Sys, step: Step, until: nat)
    requires Valid(s) && Tranquil(s, until) && Gentle(step) && Apply(s, step).clock <= until
    requires forall id :: id in Apply(s, step).outputs ==> id in s.outputs
    requires forall g :: g in Apply(s, step).groups ==> g in s.groups
    ensures Tranquil(Apply(s, step), until)
  {
    hide Apply, Valid, Well, InTime, Serving, Thrives;
    var t := Apply(s, step);
    forall id | id in t.outputs ensures Well(t, id) && InTime(t.outputs[id], until) {
      OutputStaysTranquil(s, step, until, id);
      ThrivesIsWell(s, t, id);
    }
    forall g | g in t.groups ensures Serving(t.groups[g]) {
      GroupKeepsServing(s, step, until, g);
    }
    GentleGoesOn(s, step);
  }

  lemma GentleGoesOn(s: Sys, step: Step)
    requires Gentle(step)
    ensures Apply(s, step).finishing == s.finishing
  {
    hide Apply;
    StepKeepsFinishing(s, step);
  }

  // ---- What else such a step leaves alone ----

  lemma StepKeepsGraphAlone(s: Sys, step: Step)
    requires Valid(s) && !step.Constructed?
    requires forall id :: id in s.outputs ==> !Goes(s, step, id)
    requires forall g :: g in s.groups ==> !GroupGoesBy(s, step, g)
    ensures Apply(s, step).version == s.version && Apply(s, step).graph == s.graph
  {
    if Calm(step) {
      hide Apply, Valid;
      CalmIsQuiet(s, step);
    } else {
      hide Valid, PollGroup, Examine, Retire;
      match step
      case PollOutputStep(id, r) =>
        if id in s.outputs && s.unpolled == {} {
          ExamineLooks(s, id, r);
          ExamineIsQuiet(s, id, r);
        }
      case PollGroupStep(g, r) => PollGroupLeavesGraph(s, g, r);
    }
  }

  lemma PollGroupLeavesGraph(s: Sys, g: nat, r: GroupReading)
    requires !GroupGoes(s, g, r)
    ensures PollGroup(s, g, r).version == s.version && PollGroup(s, g, r).graph == s.graph
  {
    hide Polled;
  }

  // Bandwidth is only reserved by an admission.
  lemma StepReserves(s: Sys, step: Step)
    ensures Apply(s, step).capacity == s.capacity
    ensures !step.Planned? ==> Apply(s, step).reserved <= s.reserved
    ensures !step.Planned? ==> Apply(s, step).nextGroup == s.nextGroup
  {
    hide Take, LookAtPlanned, LookAtConstructed, PollGroup, PollOutput, BeginFinish, FinishOutput, Notify, Expire,
         WorkerTurn, Reject;
    match step
    case TakeStep(r) => TakeReserves(s, r);
    case Planned(r) => PlannedReserves(s, r);
    case Constructed(r) => ConstructedReserves(s, r);
    case PollGroupStep(g, r) => PollGroupReserves(s, g, r);
    case PollOutputStep(id, r) => PollOutputReserves(s, id, r);
    case FinishStep => FinishReserves(s);
    case FinishOutputStep(id, cause, generation, closing) => FinishOutputReserves(s, id, cause, generation, closing);
    case NotifyStep => NotifyReserves(s);
    case Budget(elapsed) => ExpireReserves(s, elapsed);
    case Work(r) => WorkerEffect(s, r);
    case _ =>
  }

  predicate SameRoom(s: Sys, t: Sys) {
    t.capacity == s.capacity && t.reserved == s.reserved && t.nextGroup == s.nextGroup
  }

  lemma RejectReserves(s: Sys, id: nat, f: Fault)
    ensures SameRoom(s, Reject(s, id, f))
  {
  }

  lemma NotifyReserves(s: Sys)
    ensures SameRoom(s, Notify(s))
  {
  }

  lemma ExpireReserves(s: Sys, elapsed: nat)
    ensures SameRoom(s, Expire(s, elapsed))
  {
  }

  lemma FinishOutputReserves(s: Sys, id: nat, cause: Option<Fault>, generation: Option<nat>, closing: Option<Fault>)
    ensures SameRoom(s, FinishOutput(s, id, cause, generation, closing))
  {
  }

  lemma FinishReserves(s: Sys)
    ensures SameRoom(s, BeginFinish(s))
  {
    hide Reject, Notify;
    var t := s.(finishing := true, ctl := C.SetEnabled(s.ctl, false));
    var (ctl, change) := C.TakeChange(t.ctl);
    if change.Some? { RejectReserves(t.(ctl := ctl), change.value.id, Fault(CANCELLED, Publication)); }
    NotifyReserves(if change.Some? then Reject(t.(ctl := ctl), change.value.id, Fault(CANCELLED, Publication)) else t);
  }

  lemma TakeReserves(s: Sys, r: TakeReading)
    ensures SameRoom(s, Take(s, r))
  {
    if CanTake(s) {
      hide Reject, Notify, Available;
      var change := C.TakeChange(s.ctl).1.value;
      var t := Taken(s);
      if change.addition {
        NotifyReserves(BeginPreparation(t, change.id, r.begin));
        if r.begin.missing.Some? {
          RejectReserves(t, change.id, r.begin.missing.value);
        } else if r.begin.noWorker.Some? {
          RejectReserves(Begun(t, change.id, r.begin).(prep := None), change.id, r.begin.noWorker.value);
        }
      } else if change.id !in s.outputs {
        RejectReserves(t, change.id, Fault(NO_BRANCH, Drain));
        NotifyReserves(Reject(t, change.id, Fault(NO_BRANCH, Drain)));
      }
    }
  }

  lemma PlannedReserves(s: Sys, r: AdmitReading)
    ensures LookAtPlanned(s, r).capacity == s.capacity
  {
    if s.prep.Some? && s.prep.value.exchange.stage.Planned? {
      hide Reject, Admission, TakesGroupId;
      PlannedEffect(s, r);
      var verdict := Admission(s, s.prep.value, r);
      if verdict.Failure? { RejectReserves(Judging(s, r), s.prep.value.id, verdict.error); }
    }
  }

  lemma ConstructedReserves(s: Sys, r: PublishReading)
    ensures SameRoom(s, LookAtConstructed(s, r))
  {
    if s.prep.Some? && s.prep.value.exchange.stage.Constructed? {
      hide Reject, NewOutput, JoinedGroup, CandidateGraph;
      var task := s.prep.value;
      if task.broken.Some? || task.plan.Failure? {
        RejectReserves(s, task.id, if task.broken.Some? then task.broken.value else Fault(CANCELLED, Publication));
      } else if Refusal(s, task, r).Some? {
        RejectReserves(s, task.id, Refusal(s, task, r).value);
      } else if r.ending.OutputNotInserted? {
        RejectReserves(JoinGroup(s, task, r), task.id, r.ending.fault);
      }
    }
  }

  lemma PollGroupReserves(s: Sys, g: nat, r: GroupReading)
    ensures SameRoom(s, PollGroup(s, g, r))
  {
    hide Polled, EraseGroup;
    if g in s.groups {
      var u := s.(unpolled := s.unpolled - {g});
      EraseReserves(if s.groups[g].branch.fault.Some? then FailMembers(u, g) else u, g, Polled(s.groups[g], r).0);
    }
  }

  lemma EraseReserves(s: Sys, g: nat, group: Group)
    ensures SameRoom(s, EraseGroup(s, g, group))
  {
  }

  lemma PollOutputReserves(s: Sys, id: nat, r: OutputReading)
    ensures var t := PollOutput(s, id, r);
            t.capacity == s.capacity && t.reserved <= s.reserved && t.nextGroup == s.nextGroup
  {
    if id in s.outputs && s.unpolled == {} {
      hide Promote, NoteFailure, Retire, B.Poll, B.Fail;
      PromoteReserves(s, id, r);
      PromoteIsQuiet(s, id, r);
      var c := PollBranch(FailOverdue(Promote(s, id, r), id, r), id, r).0;
      NoteReserves(c, id);
      NoteIsQuiet(c, id);
      RetireReserves(NoteFailure(c, id), id);
    }
  }

  lemma PromoteReserves(s: Sys, id: nat, r: OutputReading)
    requires id in s.outputs
    ensures SameRoom(s, Promote(s, id, r))
  {
  }

  lemma NoteReserves(s: Sys, id: nat)
    requires id in s.outputs
    ensures SameRoom(s, NoteFailure(s, id))
  {
  }

  lemma RetireReserves(s: Sys, id: nat)
    requires id in s.outputs
    ensures var t := Retire(s, id);
            t.capacity == s.capacity && t.reserved <= s.reserved && t.nextGroup == s.nextGroup
  {
  }

  // The preparation is moved only by the steps that are about it.
  lemma PrepStays(s: Sys, step: Step)
    requires s.ctl.inProgress && !step.Work? && !step.Planned? && !step.Constructed? && !step.Collect? && !step.Budget?
    ensures Apply(s, step).prep == s.prep
  {
    hide PollGroup, Examine, Retire, BeginFinish, FinishOutput, Notify;
    match step
    case TakeStep(r) =>
    case PollGroupStep(g, r) => PollGroupEffect(s, g, r);
    case PollOutputStep(id, r) =>
      if id in s.outputs && s.unpolled == {} {
        ExamineIsQuiet(s, id, r);
        RetireEffect(Examine(s, id, r).0, id);
      }
    case FinishStep => FinishIsQuiet(s);
    case FinishOutputStep(id, cause, generation, closing) => FinishOutputIsQuiet(s, id, cause, generation, closing);
    case NotifyStep => NotifyIsQuiet(s);
    case _ =>
  }

  // ---- A candidate nothing stands in the way of ----

  // The plan fits what was offered, and reuses only a group of the candidate's generation.
  predicate Suits(from: Sys, plan: Plan)
    requires from.prep.Some?
  {
    && Conforms(from.prep.value, plan)
    && (plan.encoding.ExistingGroup? ==>
          && plan.encoding.groupId in from.groups
          && from.groups[plan.encoding.groupId].generation == from.prep.value.generation)
  }

  // The step is gentle, and what it reads about the candidate of `from` is good: a plan that suits, a working
  // construction, the same source generation, no refusal, and time to start until then.
  predicate Kind(step: Step, from: Sys, bytes: nat, until: nat)
    requires from.prep.Some?
  {
    && Gentle(step)
    && match step
       case Work(r) => r.plan.Success? && Suits(from, r.plan.value) && r.broken.None?
       case Planned(r) =>
         && r.early.None? && r.unfit.None? && r.late.None? && r.generation == Some(from.prep.value.generation)
         && r.bytes == bytes
       case Constructed(r) =>
         && r.refused.None? && r.candidate.None? && r.generation == Some(from.prep.value.generation)
         && r.ending.Completed? && until < r.startedAt + r.startupWait
       case _ => true
  }

  predicate SameCandidate(first: Task, task: Task) {
    && task.id == first.id && task.version == first.version && task.graph == first.graph && task.groups == first.groups
    && task.generation == first.generation && task.deadline == first.deadline
  }

  // The candidate of `from`, on its way: not refused, with room for it or its bandwidth reserved.
  ghost predicate Candidate(s: Sys, from: Sys, bytes: nat)
    requires from.prep.Some?
  {
    && s.prep.Some?
    && var task := s.prep.value;
       && SameCandidate(from.prep.value, task) && !task.expired && !task.exchange.release && task.broken.None?
       && task.version == s.version
       && (!task.exchange.worker.Preparing? ==> task.plan.Success? && Suits(from, task.plan.value))
       && if task.exchange.construct then task.lease == bytes
          else s.reserved + bytes <= s.capacity && s.nextGroup < MAX_ID
  }

  // Its output, as agreed on.
  ghost predicate Published(s: Sys, from: Sys, bytes: nat)
    requires from.prep.Some?
  {
    var id := from.prep.value.id;
    && id in s.outputs
    && s.outputs[id].generation == from.prep.value.generation && s.outputs[id].lease == bytes
    && s.outputs[id].deadline == Some(from.prep.value.deadline)
  }

  // It runs.
  ghost predicate Arrived(s: Sys, from: Sys, bytes: nat)
    requires from.prep.Some?
  {
    var id := from.prep.value.id;
    Published(s, from, bytes) && Well(s, id) && s.outputs[id].state.Running?
  }

  // It waits, in the slot.
  ghost predicate Waits(s: Sys, from: Sys, bytes: nat)
    requires from.prep.Some?
  {
    var id := from.prep.value.id;
    Published(s, from, bytes) && s.outputs[id].state.Waiting? && s.changing == Some(id)
  }

  // The groups there were are still there.
  ghost predicate StillThere(from: Sys, s: Sys) {
    forall g :: g in from.groups ==> g in s.groups && s.groups[g].generation == from.groups[g].generation
  }

  ghost predicate Underway(s: Sys, from: Sys, bytes: nat, until: nat)
    requires from.prep.Some?
  {
    || Arrived(s, from, bytes)
    || (Tranquil(s, until) && StillThere(from, s) && (Candidate(s, from, bytes) || Waits(s, from, bytes)))
  }

  lemma CandidateFacts(s: Sys, from: Sys, bytes: nat)
    requires from.prep.Some? && Valid(s) && Candidate(s, from, bytes)
    ensures s.prep.value.id !in s.outputs && s.terminal.None? && s.ctl.inProgress
            && s.changing == Some(s.prep.value.id) && X.Valid(s.prep.value.exchange) && s.ctl.pending.None?
  {
  }

  lemma CandidateWorks(s: Sys, r: WorkerReading, from: Sys, bytes: nat, until: nat)
    requires from.prep.Some? && Candidate(s, from, bytes) && X.Valid(s.prep.value.exchange)
    requires Kind(Work(r), from, bytes, until)
    ensures Candidate(WorkerTurn(s, r), from, bytes)
  {
  }

  lemma FitCandidate(s: Sys, r: AdmitReading, from: Sys, bytes: nat, until: nat)
    requires from.prep.Some? && Candidate(s, from, bytes) && s.prep.value.exchange.stage.Planned?
    requires X.Valid(s.prep.value.exchange) && Kind(Planned(r), from, bytes, until) && Tranquil(s, until)
    requires StillThere(from, s) && 0 < bytes && s.clock + r.elapsed <= until < from.prep.value.deadline
    requires forall g :: g in s.groups ==> !s.groups[g].draining
    ensures Fit(s, s.prep.value, r)
  {
    var task := s.prep.value;
    forall g ensures !Objects(g, s, task, r) {
      assert task.plan.Success? && Suits(from, task.plan.value);
    }
  }

  lemma ServingIsNotDraining(s: Sys, until: nat)
    requires Valid(s) && Tranquil(s, until)
    ensures forall g :: g in s.groups ==> !s.groups[g].draining
  {
    forall g | g in s.groups ensures !s.groups[g].draining {
      assert Serving(s.groups[g]);
    }
  }

  lemma PlannedClockIs(s: Sys, r: AdmitReading)
    requires s.prep.Some? && s.prep.value.exchange.stage.Planned?
    ensures Apply(s, Planned(r)).clock == s.clock + r.elapsed
  {
    hide Reject, Admission;
    PlannedEffect(s, r);
    var verdict := Admission(s, s.prep.value, r);
    if verdict.Failure? { RejectIsQuiet(Judging(s, r), s.prep.value.id, verdict.error); }
  }

  lemma CandidateIsJudged(s: Sys, r: AdmitReading, from: Sys, bytes: nat, until: nat)
    requires from.prep.Some? && Valid(s) && Candidate(s, from, bytes) && Kind(Planned(r), from, bytes, until)
    requires Tranquil(s, until) && StillThere(from, s) && 0 < bytes && until < from.prep.value.deadline
    requires Apply(s, Planned(r)).clock <= until
    ensures Candidate(Apply(s, Planned(r)), from, bytes)
  {
    CandidateFacts(s, from, bytes);
    if s.prep.value.exchange.stage.Planned? {
      PlannedClockIs(s, r);
      ServingIsNotDraining(s, until);
      FitCandidate(s, r, from, bytes, until);
      hide Valid, Tranquil, Apply, Fit;
      FitCandidateIsAdmitted(s, r);
    }
  }

  lemma FreeCandidate(s: Sys, r: PublishReading, from: Sys, bytes: nat, until: nat)
    requires from.prep.Some? && Candidate(s, from, bytes) && s.prep.value.exchange.stage.Constructed?
    requires X.Valid(s.prep.value.exchange) && Kind(Constructed(r), from, bytes, until) && Tranquil(s, until)
    requires StillThere(from, s) && forall g :: g in s.groups ==> !s.groups[g].draining
    ensures Free(s, s.prep.value, r)
  {
    var task := s.prep.value;
    forall o ensures !Stops(o, s, task, r) {
      assert task.plan.Success? && Suits(from, task.plan.value);
    }
  }

  lemma CandidateIsPublished(s: Sys, r: PublishReading, from: Sys, bytes: nat, until: nat)
    requires from.prep.Some? && Valid(s) && Candidate(s, from, bytes) && Kind(Constructed(r), from, bytes, until)
    requires Tranquil(s, until) && StillThere(from, s) && s.prep.value.exchange.stage.Constructed?
    requires until < from.prep.value.deadline
    ensures var t, id := Apply(s, Constructed(r)), from.prep.value.id;
            && Waits(t, from, bytes) && InTime(t.outputs[id], until)
            && t.outputs[id].branch.state.Active? && t.outputs[id].branch.fault.None?
  {
    hide Apply, Valid, Tranquil, StillThere, Free, Suits, X.Valid;
    CandidateFacts(s, from, bytes);
    ServingIsNotDraining(s, until);
    FreeCandidate(s, r, from, bytes, until);
    ConstructedLease(s);
    FreeCandidateIsPublished(s, r);
    assert EndingFor(s.prep.value, r.ending).Completed?;
    PublicationHoldsSlot(s, r);
  }

  lemma PublicationHoldsSlot(s: Sys, r: PublishReading)
    ensures Apply(s, Constructed(r)).changing == s.changing
  {
    hide LookAtConstructed;
    ConstructedHoldsSlot(s, r);
  }

  lemma ConstructedLease(s: Sys)
    requires Valid(s) && s.prep.Some? && s.prep.value.exchange.stage.Constructed?
    ensures s.prep.value.exchange.construct
  {
  }

  // ---- One step ----

  lemma NothingComes(s: Sys, step: Step)
    requires Valid(s) && !Publishes(s, step)
    ensures forall id :: id in Apply(s, step).outputs ==> id in s.outputs
    ensures forall g :: g in Apply(s, step).groups ==> g in s.groups
  {
    hide Apply, Valid;
    forall id | id in Apply(s, step).outputs ensures id in s.outputs {
      if id !in s.outputs { StepBrings(s, step, id); }
    }
    GroupsComeByPublication(s, step);
  }

  lemma StaysThere(s: Sys, step: Step, from: Sys, until: nat)
    requires Valid(s) && Tranquil(s, until) && Gentle(step) && Apply(s, step).clock <= until && StillThere(from, s)
    ensures StillThere(from, Apply(s, step))
  {
    hide Apply, Valid, Tranquil, Serving, Gentle;
    forall g | g in from.groups
      ensures g in Apply(s, step).groups && Apply(s, step).groups[g].generation == from.groups[g].generation
    {
      GroupKeepsServing(s, step, until, g);
    }
  }

  lemma NobodyGoes(s: Sys, step: Step, until: nat)
    requires Valid(s) && Tranquil(s, until) && Gentle(step) && Apply(s, step).clock <= until
    ensures forall id :: id in s.outputs ==> !Goes(s, step, id)
    ensures forall g :: g in s.groups ==> !GroupGoesBy(s, step, g)
  {
    hide Apply, Valid, Well, InTime, Serving, Gentle, Goes, GroupGoesBy, Thrives;
    forall id | id in s.outputs ensures !Goes(s, step, id) {
      OutputStaysTranquil(s, step, until, id);
      ThrivesIsThere(s, Apply(s, step), id);
      StepMoves(s, step, id);
    }
    forall g | g in s.groups ensures !GroupGoesBy(s, step, g) {
      BranchServes(s, step, g);
    }
  }

  // The candidate after a step that does not publish it.
  lemma CandidateStays(s: Sys, step: Step, from: Sys, bytes: nat, until: nat)
    requires from.prep.Some? && Valid(s) && Tranquil(s, until) && StillThere(from, s) && Candidate(s, from, bytes)
    requires Kind(step, from, bytes, until) && 0 < bytes && Apply(s, step).clock <= until < from.prep.value.deadline
    requires !Publishes(s, step)
    ensures Candidate(Apply(s, step), from, bytes)
  {
    hide Apply, Valid, Tranquil, StillThere, Candidate, Kind;
    CandidateFacts(s, from, bytes);
    KindIsGentle(step, from, bytes, until);
    match step
    case Work(r) =>
      CandidateWorks(s, r, from, bytes, until);
      WorkIsAStep(s, r);
    case Planned(r) => CandidateIsJudged(s, r, from, bytes, until);
    case Constructed(r) => NothingToPublish(s, step);
    case Collect => CandidateIsNotCollected(s, from, bytes);
    case Budget(elapsed) => CandidateInBudget(s, elapsed, from, bytes);
    case _ => CandidateIsLeftAlone(s, step, from, bytes, until);
  }

  lemma WorkIsAStep(s: Sys, r: WorkerReading)
    ensures Apply(s, Work(r)) == WorkerTurn(s, r)
  {
  }

  lemma CandidateIsNotCollected(s: Sys, from: Sys, bytes: nat)
    requires from.prep.Some? && Candidate(s, from, bytes) && X.Valid(s.prep.value.exchange)
    ensures Apply(s, Collect) == s
  {
  }

  lemma CandidateInBudget(s: Sys, elapsed: nat, from: Sys, bytes: nat)
    requires from.prep.Some? && Candidate(s, from, bytes) && Apply(s, Budget(elapsed)).clock < from.prep.value.deadline
    ensures Candidate(Apply(s, Budget(elapsed)), from, bytes)
  {
    hide Apply, Suits;
    BudgetMeans(s, elapsed);
  }

  lemma CandidateIsLeftAlone(s: Sys, step: Step, from: Sys, bytes: nat, until: nat)
    requires from.prep.Some? && Valid(s) && Tranquil(s, until) && Candidate(s, from, bytes) && s.ctl.inProgress
    requires Gentle(step) && Apply(s, step).clock <= until
    requires !step.Work? && !step.Planned? && !step.Constructed? && !step.Collect? && !step.Budget?
    ensures Candidate(Apply(s, step), from, bytes)
  {
    hide Apply, Valid, Tranquil, Suits, Gentle, Goes, GroupGoesBy;
    PrepStays(s, step);
    StepReserves(s, step);
    NobodyGoes(s, step, until);
    StepKeepsGraphAlone(s, step);
  }

  lemma CandidateSaysNoFailure(s: Sys, step: Step, from: Sys, bytes: nat)
    requires from.prep.Some? && Valid(s) && Candidate(s, from, bytes) && Gentle(step)
    requires Candidate(Apply(s, step), from, bytes) && !Publishes(s, step)
    ensures Silent(Said(s, step), from.prep.value.id, Failed)
  {
    CandidateFacts(s, from, bytes);
    hide Apply, Valid, Said;
    if step.Planned? {
      CandidateIsNotRefused(s, step.admit);
    } else if step.Budget? {
      BudgetIsNotExceeded(s, step.elapsed);
    } else {
      OthersSayNothingOf(s, step, from.prep.value.id);
    }
  }

  lemma BudgetIsNotExceeded(s: Sys, elapsed: nat)
    requires s.prep.Some? && Apply(s, Budget(elapsed)).prep.Some? && !Apply(s, Budget(elapsed)).prep.value.expired
    ensures Said(s, Budget(elapsed)) == []
  {
  }

  lemma OthersSayNothingOf(s: Sys, step: Step, id: nat)
    requires id !in s.outputs && s.terminal.None? && s.ctl.pending.None? && Gentle(step)
    requires !step.Planned? && !step.Budget? && !Publishes(s, step)
    ensures Silent(Said(s, step), id, Failed)
  {
    hide Polled, Looked, Retires, Defers, BecomesRunning;
  }

  lemma CandidateIsNotRefused(s: Sys, r: AdmitReading)
    requires Valid(s) && s.prep.Some?
    requires Apply(s, Planned(r)).prep.Some? && !Apply(s, Planned(r)).prep.value.exchange.release
    ensures Said(s, Planned(r)) == []
  {
    if s.prep.value.exchange.stage.Planned? {
      hide Valid, Reject, Admission;
      PlannedEffect(s, r);
    }
  }

  // The published candidate leaves the session tranquil.
  lemma PublicationIsTranquil(s: Sys, r: PublishReading, from: Sys, bytes: nat, until: nat)
    requires from.prep.Some? && Valid(s) && Tranquil(s, until) && StillThere(from, s) && Candidate(s, from, bytes)
    requires Kind(Constructed(r), from, bytes, until) && Publishes(s, Constructed(r))
    requires Apply(s, Constructed(r)).clock <= until < from.prep.value.deadline
    ensures Tranquil(Apply(s, Constructed(r)), until) && Waits(Apply(s, Constructed(r)), from, bytes)
    ensures Silent(Said(s, Constructed(r)), from.prep.value.id, Failed)
  {
    hide Apply, Valid, Candidate, Said, Suits, Serving, Thrives, Well;
    var step, t, id := Constructed(r), Apply(s, Constructed(r)), from.prep.value.id;
    StepKeepsValid(s, step);
    CandidateFacts(s, from, bytes);
    CandidateIsPublished(s, r, from, bytes, until);
    FreePublication(s, r, from, bytes, until);
    NewGroupServes(s, r, from, bytes, until);
    PendingAfter(s, t, step);
    GentleGoesOn(s, step);
    PublishedId(s, from, bytes);
    forall x | x in t.outputs ensures Well(t, x) && InTime(t.outputs[x], until) {
      if x in s.outputs {
        OutputStaysTranquil(s, step, until, x);
        ThrivesIsWell(s, t, x);
      } else {
        StepBrings(s, step, x);
        NewIsWell(t, x);
      }
    }
    forall g | g in t.groups ensures Serving(t.groups[g]) {
      if g in s.groups { GroupKeepsServing(s, step, until, g); }
    }
  }

  lemma PublishedId(s: Sys, from: Sys, bytes: nat)
    requires from.prep.Some? && Candidate(s, from, bytes)
    ensures s.prep.value.id == from.prep.value.id
  {
  }

  lemma PendingAfter(s: Sys, t: Sys, step: Step)
    requires step.Constructed? && t == Apply(s, step)
    ensures t.ctl.pending == s.ctl.pending
  {
    ConstructedPending(s, step.publish);
  }

  lemma NewIsWell(s: Sys, id: nat)
    requires Valid(s) && id in s.outputs && s.outputs[id].state.Waiting? && s.ctl.pending.None?
    requires s.outputs[id].branch.state.Active? && s.outputs[id].branch.fault.None?
    requires s.outputs[id].groupId in s.groups && Serving(s.groups[s.outputs[id].groupId])
    ensures Well(s, id)
  {
  }

  lemma FreePublication(s: Sys, r: PublishReading, from: Sys, bytes: nat, until: nat)
    requires from.prep.Some? && Valid(s) && Tranquil(s, until) && StillThere(from, s) && Candidate(s, from, bytes)
    requires Kind(Constructed(r), from, bytes, until) && Publishes(s, Constructed(r))
    ensures Silent(Said(s, Constructed(r)), from.prep.value.id, Failed)
  {
    hide Valid, Tranquil, Free, Candidate, Objection, StillThere, Kind, X.Valid, EndingFor;
    CandidateFacts(s, from, bytes);
    ServingIsNotDraining(s, until);
    FreeCandidate(s, r, from, bytes, until);
    ConstructedFacts(s);
    ObjectionMeans(s, s.prep.value, r);
  }

  // The group of the new output serves, be it new or not.
  lemma NewGroupServes(s: Sys, r: PublishReading, from: Sys, bytes: nat, until: nat)
    requires from.prep.Some? && Valid(s) && Tranquil(s, until) && StillThere(from, s) && Candidate(s, from, bytes)
    requires Kind(Constructed(r), from, bytes, until) && Publishes(s, Constructed(r))
    ensures var t, id := Apply(s, Constructed(r)), from.prep.value.id;
            && id in t.outputs && t.outputs[id].groupId in t.groups && Serving(t.groups[t.outputs[id].groupId])
            && forall g :: g in t.groups && g !in s.groups ==> Serving(t.groups[g])
  {
    hide Apply, Valid, Tranquil, Free, Candidate, Objection, Kind, StillThere, X.Valid;
    CandidateFacts(s, from, bytes);
    ServingIsNotDraining(s, until);
    FreeCandidate(s, r, from, bytes, until);
    ConstructedFacts(s);
    var task := s.prep.value;
    ObjectionMeans(s, task, r);
    SharedGroupServes(s, from, bytes, until);
    KindEnding(r, from, bytes, until);
    PublishedId(s, from, bytes);
    SettledGroupServes(s, r);
  }

  lemma KindEnding(r: PublishReading, from: Sys, bytes: nat, until: nat)
    requires from.prep.Some? && Kind(Constructed(r), from, bytes, until)
    ensures r.ending.Completed?
  {
  }

  lemma SharedGroupServes(s: Sys, from: Sys, bytes: nat, until: nat)
    requires from.prep.Some? && Tranquil(s, until) && StillThere(from, s) && Candidate(s, from, bytes)
    requires s.prep.value.exchange.stage.Constructed? && X.Valid(s.prep.value.exchange) && s.prep.value.plan.Success?
    ensures var task := s.prep.value;
            task.plan.value.encoding.ExistingGroup? ==> Target(task) in s.groups && Serving(s.groups[Target(task)])
  {
  }

  lemma SettledGroupServes(s: Sys, r: PublishReading)
    requires s.prep.Some? && s.prep.value.exchange.stage.Constructed? && s.prep.value.plan.Success?
    requires Objection(s, s.prep.value, r).None? && r.ending.Completed?
    requires var task := s.prep.value;
             task.plan.value.encoding.ExistingGroup? ==> Target(task) in s.groups && Serving(s.groups[Target(task)])
    ensures var t, id := Apply(s, Constructed(r)), s.prep.value.id;
            && id in t.outputs && t.outputs[id].groupId in t.groups && Serving(t.groups[t.outputs[id].groupId])
            && forall g :: g in t.groups && g !in s.groups ==> Serving(t.groups[g])
  {
    hide Objection, Settle, InsertOutput, JoinGroup, Serving;
    SettlesFree(s, r);
    InsertedGroupServes(s, s.prep.value, r);
  }

  lemma InsertedGroupServes(s: Sys, task: Task, r: PublishReading)
    requires task.plan.Success? && r.ending.Completed? && Target(task) in JoinGroup(s, task, r).groups
    requires task.plan.value.encoding.ExistingGroup? ==> Target(task) in s.groups && Serving(s.groups[Target(task)])
    ensures var t := InsertOutput(JoinGroup(s, task, r), task, r);
            && task.id in t.outputs && t.outputs[task.id].groupId in t.groups
            && Serving(t.groups[t.outputs[task.id].groupId])
            && forall g :: g in t.groups && g !in s.groups ==> Serving(t.groups[g])
  {
  }

  lemma ArrivedStays(s: Sys, step: Step, from: Sys, bytes: nat)
    requires from.prep.Some? && Valid(s) && Arrived(s, from, bytes) && Gentle(step)
    ensures Arrived(Apply(s, step), from, bytes)
    ensures Times(Apply(s, step).told, from.prep.value.id, Failed) == Times(s.told, from.prep.value.id, Failed)
  {
    hide Apply, Valid;
    var id := from.prep.value.id;
    GentleSpares(step, id, s.outputs[id].groupId);
    StepThrives(s, step, id);
  }

  lemma WaitsOrArrives(s: Sys, step: Step, from: Sys, bytes: nat, until: nat)
    requires from.prep.Some? && Valid(s) && Tranquil(s, until) && StillThere(from, s) && Waits(s, from, bytes)
    requires Gentle(step) && Apply(s, step).clock <= until
    ensures Underway(Apply(s, step), from, bytes, until)
    ensures Times(Apply(s, step).told, from.prep.value.id, Failed) == Times(s.told, from.prep.value.id, Failed)
  {
    hide Apply, Valid, Gentle, Serving, InTime, Tranquil, StillThere, BecomesRunning, Released, Publishes;
    var t, id := Apply(s, step), from.prep.value.id;
    WaiterIsNotACandidate(s, step, id);
    TranquilIsWell(s, id, until);
    OutputStaysTranquil(s, step, until, id);
    NothingComes(s, step);
    StaysTranquil(s, step, until);
    StaysThere(s, step, from, until);
    if t.outputs[id].state.Waiting? { StillHolds(s, step, id); }
  }

  lemma TranquilIsWell(s: Sys, id: nat, until: nat)
    requires Tranquil(s, until) && id in s.outputs
    ensures Well(s, id)
  {
  }

  // While it waits it stays in the slot.
  lemma StillHolds(s: Sys, step: Step, id: nat)
    requires Valid(s) && Well(s, id) && s.changing == Some(id) && Gentle(step)
    requires id in Apply(s, step).outputs && Apply(s, step).outputs[id].state.Waiting?
    ensures Apply(s, step).changing == Some(id)
  {
    hide Apply, Valid, Well;
    if Apply(s, step).changing != Some(id) {
      SlotFreeMeansReleased(s, step, id);
      PromotionIsSeen(s, step, id);
    }
  }

  lemma WaiterIsNotACandidate(s: Sys, step: Step, id: nat)
    requires Valid(s) && id in s.outputs && s.changing == Some(id)
    ensures !Publishes(s, step)
  {
    if Publishes(s, step) { CandidateIsNew(s); }
  }

  // A promotion that frees the slot has made the output run.
  lemma PromotionIsSeen(s: Sys, step: Step, id: nat)
    requires Valid(s) && Well(s, id) && s.changing == Some(id) && Apply(s, step).changing != Some(id)
    requires BecomesRunning(s, step, id) && id in Apply(s, step).outputs && Smooth(step.outputReading)
    ensures Apply(s, step).outputs[id].state.Running?
  {
    if s.unpolled == {} {
      hide Apply, Valid, BecomesRunning;
      PolledId(s, step, id);
      ReadyOutputRuns(s, id, step.outputReading);
    } else {
      PollIsSkipped(s, step.id, step.outputReading);
    }
  }

  lemma PolledId(s: Sys, step: Step, id: nat)
    requires BecomesRunning(s, step, id)
    ensures step == PollOutputStep(id, step.outputReading)
  {
  }

  lemma StepUnderway(s: Sys, step: Step, from: Sys, bytes: nat, until: nat)
    requires from.prep.Some? && Valid(s) && Underway(s, from, bytes, until)
    requires Kind(step, from, bytes, until) && 0 < bytes
    requires Apply(s, step).clock <= until < from.prep.value.deadline
    ensures Underway(Apply(s, step), from, bytes, until)
    ensures Times(Apply(s, step).told, from.prep.value.id, Failed) == Times(s.told, from.prep.value.id, Failed)
  {
    hide Apply, Valid, Tranquil, StillThere, Candidate, Waits, Arrived, Gentle, Said;
    var id := from.prep.value.id;
    if Arrived(s, from, bytes) {
      ArrivedStays(s, step, from, bytes);
    } else if Waits(s, from, bytes) {
      WaitsOrArrives(s, step, from, bytes, until);
    } else {
      StaysThere(s, step, from, until);
      if Publishes(s, step) {
        PublicationIsTranquil(s, step.publish, from, bytes, until);
      } else {
        NothingComes(s, step);
        StaysTranquil(s, step, until);
        CandidateStays(s, step, from, bytes, until);
        CandidateSaysNoFailure(s, step, from, bytes);
      }
      SilentMentions(Said(s, step), id, Failed);
      StepCounts(s, step, id, Failed);
    }
  }

  ghost predicate AllKind(steps: seq<Step>, from: Sys, bytes: nat, until: nat)
    requires from.prep.Some?
  {
    forall step :: step in steps ==> Kind(step, from, bytes, until)
  }

  lemma {:induction false} RunUnderway(s: Sys, steps: seq<Step>, from: Sys, bytes: nat, until: nat)
    requires from.prep.Some? && Valid(s) && Underway(s, from, bytes, until) && AllKind(steps, from, bytes, until)
    requires 0 < bytes && Run(s, steps).clock <= until < from.prep.value.deadline
    ensures Underway(Run(s, steps), from, bytes, until)
    ensures Times(Run(s, steps).told, from.prep.value.id, Failed) == Times(s.told, from.prep.value.id, Failed)
    ensures Arrived(s, from, bytes) ==> Arrived(Run(s, steps), from, bytes)
    decreases |steps|
  {
    hide Apply, Valid, Underway, Kind, Arrived;
    if steps != [] {
      assert steps[0] in steps;
      RunClock(Apply(s, steps[0]), steps[1..]);
      StepUnderway(s, steps[0], from, bytes, until);
      StepKeepsValid(s, steps[0]);
      if Arrived(s, from, bytes) {
        KindIsGentle(steps[0], from, bytes, until);
        ArrivedStays(s, steps[0], from, bytes);
      }
      RunUnderway(Apply(s, steps[0]), steps[1..], from, bytes, until);
    }
  }

  lemma KindIsGentle(step: Step, from: Sys, bytes: nat, until: nat)
    requires from.prep.Some? && Kind(step, from, bytes, until)
    ensures Gentle(step)
  {
  }

  // ---- Rounds ----

  // Until it runs the output holds the slot.
  lemma {:induction false} HoldsUntilArrival(s: Sys, steps: seq<Step>, from: Sys, bytes: nat, until: nat)
    requires from.prep.Some? && Valid(s) && Underway(s, from, bytes, until) && AllKind(steps, from, bytes, until)
    requires 0 < bytes && Run(s, steps).clock <= until < from.prep.value.deadline
    requires !Arrived(Run(s, steps), from, bytes)
    ensures Holds(s, steps, from.prep.value.id)
    decreases |steps|
  {
    hide Apply, Valid, Kind, Arrived;
    RunUnderway(s, steps, from, bytes, until);
    NotArrivedHolds(s, from, bytes, until);
    hide Underway;
    if steps != [] {
      assert steps[0] in steps;
      RunClock(Apply(s, steps[0]), steps[1..]);
      StepUnderway(s, steps[0], from, bytes, until);
      StepKeepsValid(s, steps[0]);
      HoldsUntilArrival(Apply(s, steps[0]), steps[1..], from, bytes, until);
    }
  }

  lemma NotArrivedHolds(s: Sys, from: Sys, bytes: nat, until: nat)
    requires from.prep.Some? && Valid(s) && Underway(s, from, bytes, until) && !Arrived(s, from, bytes)
    ensures s.changing == Some(from.prep.value.id)
    ensures s.prep.None? ==> Waits(s, from, bytes) && Tranquil(s, until)
  {
    if Candidate(s, from, bytes) { CandidateFacts(s, from, bytes); }
  }

  // With the preparation collected, one poll makes the output run.
  lemma LastRound(s: Sys, env: Surroundings, asleep: seq<Step>, from: Sys, bytes: nat, until: nat)
    requires from.prep.Some? && Valid(s) && Tranquil(s, until) && Waits(s, from, bytes) && s.prep.None? && Proper(env)
    requires StillThere(from, s) && AllKind(OneRound(s, env, asleep), from, bytes, until) && 0 < bytes
    requires Run(s, OneRound(s, env, asleep)).clock <= until < from.prep.value.deadline
    requires ShowsMedia(env.outputs(from.prep.value.id), from.prep.value.generation)
    ensures Arrived(Run(s, OneRound(s, env, asleep)), from, bytes)
  {
    var id := from.prep.value.id;
    var trace := PollTrace(s, env);
    hide Apply, Run, Valid, PollTrace, Kind, StillThere, Thrives;
    var t := Run(s, trace);
    RunAppend(s, trace, asleep);
    RunClock(t, asleep);
    var g := s.outputs[id].groupId;
    forall step | step in trace ensures Spares(step, id, g) {
      assert step in OneRound(s, env, asleep);
      KindIsGentle(step, from, bytes, until);
      GentleSpares(step, id, g);
    }
    EarlierIsInTime(s.outputs[id], s.outputs[id], t.clock, until);
    ReadyPollRuns(s, env, id);
    RunKeepsValid(s, trace);
    ThrivingArrives(s, t, from, bytes);
    assert AllKind(asleep, from, bytes, until) by {
      assert forall step :: step in asleep ==> step in OneRound(s, env, asleep);
    }
    RunUnderway(t, asleep, from, bytes, until);
  }

  lemma ThrivingArrives(s: Sys, t: Sys, from: Sys, bytes: nat)
    requires from.prep.Some? && Published(s, from, bytes) && Thrives(s, t, from.prep.value.id)
    requires t.outputs[from.prep.value.id].state.Running?
    ensures Arrived(t, from, bytes)
  {
  }

  lemma RoundUnderway(s: Sys, env: Surroundings, asleep: seq<Step>, from: Sys, bytes: nat, until: nat, k: nat)
    requires from.prep.Some? && Valid(s) && Awaited(s) && Underway(s, from, bytes, until) && FairRound(env, asleep, k)
    requires AllKind(OneRound(s, env, asleep), from, bytes, until) && 0 < bytes
    requires Run(s, OneRound(s, env, asleep)).clock <= until < from.prep.value.deadline
    requires ShowsMedia(env.outputs(from.prep.value.id), from.prep.value.generation)
    ensures var t := Run(s, OneRound(s, env, asleep));
            && Valid(t) && Awaited(t) && Underway(t, from, bytes, until)
            && (Arrived(t, from, bytes) || PrepLeft(t, k) < PrepLeft(s, k))
  {
    var round := OneRound(s, env, asleep);
    var id := from.prep.value.id;
    hide Apply, Run, Valid, Awaited, OneRound, Kind, Arrived, Tranquil, Waits, StillThere, Candidate;
    RunUnderway(s, round, from, bytes, until);
    RunKeepsAwaited(s, round);
    if !Arrived(Run(s, round), from, bytes) {
      HoldsUntilArrival(s, round, from, bytes, until);
      if s.prep.Some? {
        PreparationComesCloser(s, env, asleep, id, k);
      } else {
        NotArrivedHolds(s, from, bytes, until);
        LastRound(s, env, asleep, from, bytes, until);
      }
    }
  }

  // Every round of the schedule shows media of the candidate's generation.
  ghost predicate ShowsAlways(env: Schedule, id: nat, generation: nat) {
    forall i :: ShowsMedia(env.polls(i).outputs(id), generation)
  }

  lemma {:induction false} RoundsUnderway(s: Sys, env: Schedule, i: nat, n: nat, from: Sys, bytes: nat, until: nat,
                                          k: nat)
    requires from.prep.Some? && Valid(s) && Awaited(s) && Underway(s, from, bytes, until) && FairSchedule(env, k)
    requires AllKind(ManyRounds(s, env, i, n), from, bytes, until) && 0 < bytes
    requires Run(s, ManyRounds(s, env, i, n)).clock <= until < from.prep.value.deadline
    requires ShowsAlways(env, from.prep.value.id, from.prep.value.generation)
    requires Arrived(s, from, bytes) || PrepLeft(s, k) < n
    ensures Arrived(Run(s, ManyRounds(s, env, i, n)), from, bytes)
    decreases n
  {
    hide Apply, Run, Valid, Awaited, OneRound, Kind, Arrived, Underway, FairRound, ShowsMedia, PrepLeft;
    if Arrived(s, from, bytes) {
      RunUnderway(s, ManyRounds(s, env, i, n), from, bytes, until);
    } else {
      var one := OneRound(s, env.polls(i), env.sleeps(i));
      var t := Run(s, one);
      var rest := ManyRounds(t, env, i + 1, n - 1);
      RunAppend(s, one, rest);
      RunClock(t, rest);
      assert forall step :: step in one ==> step in one + rest;
      assert forall step :: step in rest ==> step in one + rest;
      RoundUnderway(s, env.polls(i), env.sleeps(i), from, bytes, until, k);
      RoundsUnderway(t, env, i + 1, n - 1, from, bytes, until, k);
    }
  }

  // ---- From the call to the running output ----

  // The state in which the addition has just been taken.
  function Begins(s: Sys, r: TakeReading): Sys {
    Apply(Apply(s, CallAdd), TakeStep(r))
  }

  /** In an idle session a call of addOutput is admitted under the next identifier and taken; its preparation
      has the source's generation, the current graph and version, and its full startup budget. */
  lemma AdditionBegins(s: Sys, r: TakeReading)
    requires Valid(s) && Idle(s) && s.ctl.nextId != MAX_ID && r.begin.missing.None? && r.begin.noWorker.None?
    ensures var t := Begins(s, r);
            && t.prep.Some? && t.changing == Some(s.ctl.nextId)
            && t.outputs == s.outputs && t.groups == s.groups && t.ctl.pending.None? && t.version == s.version
            && t.reserved == s.reserved && t.capacity == s.capacity && t.nextGroup == s.nextGroup
            && t.finishing == s.finishing
            && t.told == C.Then(s.told, Snapshot(s.ctl.nextId, Preparing, Preparation, None))
            && s.ctl.nextId in t.ctl.table && t.ctl.table[s.ctl.nextId].state.Preparing?
            && var task := t.prep.value;
               && task.id == s.ctl.nextId && task.generation == r.begin.generation && task.version == s.version
               && task.graph == s.graph && task.deadline == s.clock + r.begin.elapsed + r.begin.timeout
               && !task.expired && task.exchange == X.FRESH && task.broken.None? && task.lease == 0
               && (forall g :: g in task.groups <==>
                     && g in s.groups && g in r.begin.witnessed && s.groups[g].graphPublished && !s.groups[g].draining
                     && s.groups[g].branch.state.Active? && s.groups[g].branch.fault.None?)
  {
    var a := Apply(s, CallAdd);
    assert a == s.(ctl := a.ctl) && a.ctl.pending == Some(Change(s.ctl.nextId, true)) && !a.ctl.inProgress;
    var t := Begun(Taken(a), s.ctl.nextId, r.begin);
    assert Notify(t) == t;
  }

  lemma BeginningIsTranquil(s: Sys, r: TakeReading, bytes: nat, until: nat)
    requires Valid(s) && Idle(s) && s.ctl.nextId != MAX_ID && r.begin.missing.None? && r.begin.noWorker.None?
    requires Tranquil(s, until) && s.reserved + bytes <= s.capacity && s.nextGroup < MAX_ID
    ensures var t := Begins(s, r);
            Valid(t) && Awaited(t) && t.prep.Some? && Underway(t, t, bytes, until)
  {
    hide Apply, Valid, Idle, Well, InTime, Serving, Awaited, Underway, Suits, Tranquil;
    AdditionBegins(s, r);
    StepKeepsValid(s, CallAdd);
    StepKeepsValid(Apply(s, CallAdd), TakeStep(r));
    var t := Begins(s, r);
    NewIdIsFresh(s);
    FreshIsNoticeless(t);
    FreshIsAwaited(t);
    StillTranquil(s, t, until);
    FreshIsUnderway(t, bytes, until);
  }

  lemma StillTranquil(s: Sys, t: Sys, until: nat)
    requires Tranquil(s, until) && t.outputs == s.outputs && t.groups == s.groups && t.ctl.pending.None?
    requires t.finishing == s.finishing
    ensures Tranquil(t, until)
  {
    hide Well, InTime, Serving;
    forall id | id in t.outputs ensures Well(t, id) {
      StillWell(s, t, id);
    }
  }

  lemma FreshIsAwaited(s: Sys)
    requires s.terminalGroup.None? && s.changing.Some? && s.changing.value !in s.outputs
    ensures Awaited(s)
  {
  }

  lemma FreshIsUnderway(s: Sys, bytes: nat, until: nat)
    requires s.prep.Some? && Tranquil(s, until) && s.reserved + bytes <= s.capacity && s.nextGroup < MAX_ID
    requires var task := s.prep.value;
             !task.expired && task.exchange == X.FRESH && task.broken.None? && task.version == s.version
    ensures Underway(s, s, bytes, until)
  {
    hide Tranquil, Arrived, Waits;
    assert Candidate(s, s, bytes);
  }

  lemma StillWell(s: Sys, t: Sys, id: nat)
    requires Well(s, id) && t.outputs == s.outputs && t.groups == s.groups && t.ctl.pending.None?
    ensures Well(t, id)
  {
  }

  lemma NewIdIsFresh(s: Sys)
    requires Valid(s)
    ensures s.ctl.nextId !in s.outputs
  {
    assert forall id :: id in s.outputs ==> OutputListed(s, id);
  }

  lemma FreshIsNoticeless(s: Sys)
    requires Valid(s) && s.prep.Some? && s.prep.value.exchange == X.FRESH
    ensures s.terminalGroup.None?
  {
  }

  /** An addition to a session that nothing disturbs succeeds: the call is admitted, and in more rounds than the
      preparation can take, if the surroundings are fair and kind, the plan suits, the source stays at its
      generation, there is room and the time allows, the output runs, with the generation, the deadline and
      the lease agreed on, listed Running, with the slot free, and never reported Failed. */
  lemma AdditionSucceeds(s: Sys, r: TakeReading, env: Schedule, n: nat, bytes: nat, until: nat, k: nat)
    requires Valid(s) && Idle(s) && s.ctl.nextId != MAX_ID && r.begin.missing.None? && r.begin.noWorker.None?
    requires Tranquil(s, until) && s.nextGroup < MAX_ID && 0 < bytes && s.reserved + bytes <= s.capacity
    requires var from := Begins(s, r);
             && from.prep.Some? && FairSchedule(env, k) && PrepLeft(from, k) < n
             && ShowsAlways(env, s.ctl.nextId, r.begin.generation)
             && AllKind(ManyRounds(from, env, 0, n), from, bytes, until)
             && Run(from, ManyRounds(from, env, 0, n)).clock <= until
             && until < s.clock + r.begin.elapsed + r.begin.timeout
    ensures var from, id := Begins(s, r), s.ctl.nextId;
            var t := Run(from, ManyRounds(from, env, 0, n));
            && id in t.outputs && t.outputs[id].state.Running? && t.outputs[id].branch.fault.None?
            && t.outputs[id].generation == r.begin.generation && t.outputs[id].lease == bytes
            && t.outputs[id].deadline == Some(s.clock + r.begin.elapsed + r.begin.timeout)
            && (id in t.ctl.table ==> t.ctl.table[id].state.Running?) && (!t.finishing ==> id in t.ctl.table)
            && t.changing != Some(id)
            && Times(t.told, id, Failed) == Times(s.told, id, Failed)
  {
    hide Apply, Run, Valid, Begins, Tranquil, Kind, ManyRounds, FairSchedule, Underway, Idle, ShowsAlways, Awaited,
         Well, PrepLeft;
    var from, id := Begins(s, r), s.ctl.nextId;
    AdditionBegins(s, r);
    BeginningIsTranquil(s, r, bytes, until);
    RoundsUnderway(from, env, 0, n, from, bytes, until, k);
    RunUnderway(from, ManyRounds(from, env, 0, n), from, bytes, until);
    RunKeepsAwaited(from, ManyRounds(from, env, 0, n));
    var t := Run(from, ManyRounds(from, env, 0, n));
    RunningIsListed(t, id);
    RunningIsNotChanging(t, id);
    WellIsUnfailed(t, id);
    assert Times(from.told, id, Failed) == Times(s.told, id, Failed);
  }

  lemma WellIsUnfailed(s: Sys, id: nat)
    requires Well(s, id)
    ensures s.outputs[id].branch.fault.None?
  {
  }

  // A well, running output is not in the slot.
  lemma RunningIsNotChanging(s: Sys, id: nat)
    requires Valid(s) && Awaited(s) && Well(s, id) && s.outputs[id].state.Running?
    ensures s.changing != Some(id)
  {
  }
}
