/** When a candidate is admitted and published: the grounds on which it can be refused, in order, what an
    admitted and a published candidate leave behind, and that generations never mix. */
module ControllerAdmission {
  import opened Wrappers
  import opened OutputTypes
  import opened ControllerModel
  import opened ControllerInvariant
  import opened ControllerEffects
  import opened ControllerMoves
  import C = ControlModel
  import X = PreparationExchange

  // ---- Grounds for refusing a planned candidate ----

  datatype Ground =
    | PlanFailed | TooLate | CannotJoin | SessionEnds | SourceChanged | GraphChanged | Unfit | IdsUsedUp
    | GroupUnavailable | OverCapacity | ResourceRefused

  // The order in which they are examined.
  function Position(g: Ground): nat {
    match g
    case PlanFailed => 0
    case TooLate => 1
    case CannotJoin => 2
    case SessionEnds => 3
    case SourceChanged => 4
    case GraphChanged => 5
    case Unfit => 6
    case IdsUsedUp => 7
    case GroupUnavailable => 8
    case OverCapacity => 9
    case ResourceRefused => 10
  }

  // The group can take another output of this generation.
  predicate Shareable(s: Sys, g: nat, generation: nat) {
    && g in s.groups && s.groups[g].generation == generation && !s.groups[g].draining
    && s.groups[g].branch.state.Active? && s.groups[g].branch.fault.None?
  }

  predicate Objects(g: Ground, s: Sys, task: Task, r: AdmitReading) {
    match g
    case PlanFailed => task.plan.Failure?
    case TooLate => task.expired || task.deadline <= s.clock + r.elapsed
    case CannotJoin => r.early.Some?
    case SessionEnds => s.finishing
    case SourceChanged => r.generation != Some(task.generation)
    case GraphChanged => task.version != s.version
    case Unfit => r.unfit.Some?
    case IdsUsedUp => task.plan.Success? && task.plan.value.encoding.NewGroup? && s.nextGroup == MAX_ID
    case GroupUnavailable =>
      && task.plan.Success? && task.plan.value.encoding.ExistingGroup?
      && !Shareable(s, task.plan.value.encoding.groupId, task.generation)
    case OverCapacity => r.bytes == 0 || s.capacity < s.reserved + r.bytes
    case ResourceRefused => r.late.Some?
  }

  // What the refusal reports.
  function Blame(g: Ground, task: Task, r: AdmitReading): Fault {
    match g
    case PlanFailed => Fault(if task.plan.Failure? then task.plan.error else CANCELLED, Preparation)
    case TooLate => Fault(EXPIRED, Preparation)
    case CannotJoin => if r.early.Some? then r.early.value else Fault(CANCELLED, Publication)
    case Unfit => if r.unfit.Some? then r.unfit.value else Fault(CANCELLED, Publication)
    case IdsUsedUp => Fault(IDS_EXHAUSTED, Preparation)
    case OverCapacity => Fault(OVER_CAPACITY, Planning)
    case ResourceRefused => if r.late.Some? then r.late.value else Fault(CANCELLED, Publication)
    case _ => Fault(CANCELLED, Publication)
  }

  ghost predicate Fit(s: Sys, task: Task, r: AdmitReading) {
    forall g :: !Objects(g, s, task, r)
  }

  // g objects, and nothing examined before it does.
  ghost predicate FirstGround(g: Ground, s: Sys, task: Task, r: AdmitReading) {
    Objects(g, s, task, r) && forall h :: Position(h) < Position(g) ==> !Objects(h, s, task, r)
  }

  lemma {:induction false} SomeGroundIsFirst(g: Ground, s: Sys, task: Task, r: AdmitReading) returns (first: Ground)
    requires Objects(g, s, task, r)
    ensures FirstGround(first, s, task, r)
    decreases Position(g)
  {
    if h :| Position(h) < Position(g) && Objects(h, s, task, r) {
      first := SomeGroundIsFirst(h, s, task, r);
    } else {
      first := g;
    }
  }

  /** The verdict on a planned candidate: it is admitted exactly if nothing objects, to the group it asked
      for; otherwise the first ground in order is the one reported. */
  lemma VerdictMeans(s: Sys, task: Task, r: AdmitReading)
    ensures Admission(s, task, r).Success? <==> Fit(s, task, r)
    ensures Fit(s, task, r) ==>
              Admission(s, task, r).value == match task.plan.value.encoding
                                             case NewGroup(_) => s.nextGroup
                                             case ExistingGroup(g) => g
    ensures forall g :: FirstGround(g, s, task, r) ==> Admission(s, task, r) == Failure(Blame(g, task, r))
  {
    forall g | FirstGround(g, s, task, r) ensures Admission(s, task, r) == Failure(Blame(g, task, r)) {
      GroundIsReported(g, s, task, r);
    }
    if !Fit(s, task, r) {
      var g :| Objects(g, s, task, r);
      var first := SomeGroundIsFirst(g, s, task, r);
      GroundIsReported(first, s, task, r);
    } else {
      FitIsAdmitted(s, task, r);
    }
  }

  // No ground up to this one objects.
  predicate ClearTo(n: nat, s: Sys, task: Task, r: AdmitReading) {
    && (0 < n ==> !Objects(PlanFailed, s, task, r)) && (1 < n ==> !Objects(TooLate, s, task, r))
    && (2 < n ==> !Objects(CannotJoin, s, task, r)) && (3 < n ==> !Objects(SessionEnds, s, task, r))
    && (4 < n ==> !Objects(SourceChanged, s, task, r)) && (5 < n ==> !Objects(GraphChanged, s, task, r))
    && (6 < n ==> !Objects(Unfit, s, task, r)) && (7 < n ==> !Objects(IdsUsedUp, s, task, r))
    && (8 < n ==> !Objects(GroupUnavailable, s, task, r)) && (9 < n ==> !Objects(OverCapacity, s, task, r))
    && (10 < n ==> !Objects(ResourceRefused, s, task, r))
  }

  lemma FirstIsClear(g: Ground, s: Sys, task: Task, r: AdmitReading)
    requires FirstGround(g, s, task, r)
    ensures ClearTo(Position(g), s, task, r)
  {
    hide Objects;
    var n := Position(g);
    assert Position(PlanFailed) == 0 && Position(TooLate) == 1 && Position(CannotJoin) == 2;
    assert Position(SessionEnds) == 3 && Position(SourceChanged) == 4 && Position(GraphChanged) == 5;
    assert Position(Unfit) == 6 && Position(IdsUsedUp) == 7 && Position(GroupUnavailable) == 8;
    assert Position(OverCapacity) == 9 && Position(ResourceRefused) == 10;
  }

  lemma GroundIsReported(g: Ground, s: Sys, task: Task, r: AdmitReading)
    requires FirstGround(g, s, task, r)
    ensures Admission(s, task, r) == Failure(Blame(g, task, r))
  {
    FirstIsClear(g, s, task, r);
  }

  lemma FitIsAdmitted(s: Sys, task: Task, r: AdmitReading)
    requires Fit(s, task, r)
    ensures task.plan.Success?
    ensures Admission(s, task, r) == Success(match task.plan.value.encoding
                                             case NewGroup(_) => s.nextGroup
                                             case ExistingGroup(g) => g)
  {
    hide Objects;
    assert ClearTo(11, s, task, r);
    ClearIsAdmitted(s, task, r);
  }

  lemma ClearIsAdmitted(s: Sys, task: Task, r: AdmitReading)
    requires ClearTo(11, s, task, r)
    ensures task.plan.Success?
    ensures Admission(s, task, r) == Success(match task.plan.value.encoding
                                             case NewGroup(_) => s.nextGroup
                                             case ExistingGroup(g) => g)
  {
  }

  // ---- The look at a planned candidate ----

  // The candidate as admitted.
  function Admitted(s: Sys, task: Task, bytes: nat): Task
    requires task.plan.Success?
  {
    var g := match task.plan.value.encoding case NewGroup(_) => s.nextGroup case ExistingGroup(h) => h;
    task.(target := g, lease := bytes, exchange := task.exchange.(construct := true, stage := X.Constructing))
  }

  /** A planned candidate nothing objects to is admitted: its group is fixed (a new one uses up an identity),
      its bandwidth is reserved, construction begins, and nothing else changes. */
  lemma FitCandidateIsAdmitted(s: Sys, r: AdmitReading)
    requires s.prep.Some? && s.prep.value.exchange.stage.Planned? && Fit(s, s.prep.value, r)
    ensures var task := s.prep.value;
            && task.plan.Success?
            && Apply(s, Planned(r)) ==
               s.(clock := s.clock + r.elapsed, reserved := s.reserved + r.bytes,
                  nextGroup := s.nextGroup + (if task.plan.value.encoding.NewGroup? then 1 else 0),
                  prep := Some(Admitted(s, task, r.bytes)))
  {
    FitIsAdmitted(s, s.prep.value, r);
    PlannedEffect(s, r);
    hide Fit;
  }

  /** A planned candidate something objects to is rejected for the first ground: Failed is told, and listed;
      Retired is to follow; its worker is released; it holds no bandwidth. */
  lemma UnfitCandidateIsRejected(s: Sys, r: AdmitReading, g: Ground)
    requires Valid(s) && s.prep.Some? && s.prep.value.exchange.stage.Planned? && FirstGround(g, s, s.prep.value, r)
    ensures var task, f, t := s.prep.value, Blame(g, s.prep.value, r), Apply(s, Planned(r));
            && t.told == C.Then(s.told, Rejection(task.id, f)) && t.terminal == Some(Dismissal(task.id, f))
            && task.id in t.ctl.table && t.ctl.table[task.id] == Rejection(task.id, f)
            && t.prep.Some? && t.prep.value.exchange.release && !t.prep.value.exchange.construct
            && t.reserved == s.reserved && t.outputs == s.outputs && t.groups == s.groups && t.graph == s.graph
  {
    hide Valid, FirstGround, Admission, Reject, Blame;
    var task := s.prep.value;
    GroundIsReported(g, s, task, r);
    PlannedFacts(s);
    PlannedEffect(s, r);
    RejectSays(Judging(s, r), task.id, Blame(g, task, r));
    RejectIsQuiet(Judging(s, r), task.id, Blame(g, task, r));
    RejectLeavesGroups(Judging(s, r), task.id, Blame(g, task, r));
    RejectReservesNothing(Judging(s, r), task.id, Blame(g, task, r));
  }

  lemma PlannedFacts(s: Sys)
    requires Valid(s) && s.prep.Some? && s.prep.value.exchange.stage.Planned?
    ensures s.prep.value.id in s.ctl.table && s.changingGroup.None? && !s.prep.value.exchange.construct
  {
    CandidateIsNew(s);
  }

  lemma RejectReservesNothing(s: Sys, id: nat, f: Fault)
    ensures Reject(s, id, f).reserved == s.reserved
  {
  }

  /** What an admission means afterwards: a planned step sets `construct` exactly if the source is at the
      candidate's generation, the graph is the one it was planned on, there is time and room, a group to join
      can still be shared, and nobody refused anything. */
  lemma AdmissionMeans(s: Sys, r: AdmitReading)
    requires Valid(s) && s.prep.Some? && s.prep.value.exchange.stage.Planned?
    ensures var t := Apply(s, Planned(r));
            t.prep.Some? && (t.prep.value.exchange.construct <==> Fit(s, s.prep.value, r))
  {
    if Fit(s, s.prep.value, r) {
      FitCandidateIsAdmitted(s, r);
    } else {
      var g :| Objects(g, s, s.prep.value, r);
      var first := SomeGroundIsFirst(g, s, s.prep.value, r);
      hide Valid, Apply;
      UnfitCandidateIsRejected(s, r, first);
    }
  }

  /** The startup budget: exactly when it runs out, for the first time, Failed is told and listed, and the
      candidate is marked; its worker keeps it. */
  lemma BudgetMeans(s: Sys, elapsed: nat)
    requires s.prep.Some?
    ensures var task, t := s.prep.value, Apply(s, Budget(elapsed));
            if !task.expired && task.deadline <= s.clock + elapsed then
              && t.prep == Some(task.(expired := true)) && t.clock == s.clock + elapsed
              && t.told == C.Then(s.told, Rejection(task.id, Fault(EXPIRED, Preparation)))
              && (task.id in s.ctl.table ==>
                    task.id in t.ctl.table && t.ctl.table[task.id] == Rejection(task.id, Fault(EXPIRED, Preparation)))
            else t == s
  {
  }

  // ---- Obstacles to a constructed candidate ----

  datatype Obstacle =
    | ConstructionFailed | JoinTooLate | Expired | SessionOver | SourceMoved | GraphMoved | CandidateFailed
    | GroupRetired | NotInserted

  function Place(o: Obstacle): nat {
    match o
    case ConstructionFailed => 0
    case JoinTooLate => 1
    case Expired => 2
    case SessionOver => 3
    case SourceMoved => 4
    case GraphMoved => 5
    case CandidateFailed => 6
    case GroupRetired => 7
    case NotInserted => 8
  }

  predicate Stops(o: Obstacle, s: Sys, task: Task, r: PublishReading) {
    match o
    case ConstructionFailed => task.broken.Some?
    case JoinTooLate => r.refused.Some?
    case Expired => task.expired
    case SessionOver => s.finishing
    case SourceMoved => r.generation != Some(task.generation)
    case GraphMoved => task.version != s.version
    case CandidateFailed => r.candidate.Some?
    case GroupRetired =>
      && task.plan.Success? && task.plan.value.encoding.ExistingGroup?
      && var g := task.plan.value.encoding.groupId;
         !(g in s.groups && !s.groups[g].draining && s.groups[g].branch.state.Active?
           && s.groups[g].branch.fault.None?)
    case NotInserted => r.ending.OutputNotInserted?
  }

  function Cause(o: Obstacle, task: Task, r: PublishReading): Fault {
    match o
    case ConstructionFailed => if task.broken.Some? then task.broken.value else Fault(CANCELLED, Publication)
    case JoinTooLate => if r.refused.Some? then r.refused.value else Fault(CANCELLED, Publication)
    case CandidateFailed => if r.candidate.Some? then r.candidate.value else Fault(CANCELLED, Publication)
    case NotInserted => if r.ending.OutputNotInserted? then r.ending.fault else Fault(CANCELLED, Publication)
    case _ => Fault(CANCELLED, Publication)
  }

  ghost predicate Free(s: Sys, task: Task, r: PublishReading) {
    forall o :: !Stops(o, s, task, r)
  }

  ghost predicate FirstObstacle(o: Obstacle, s: Sys, task: Task, r: PublishReading) {
    Stops(o, s, task, r) && forall p :: Place(p) < Place(o) ==> !Stops(p, s, task, r)
  }

  // No obstacle before this one.
  predicate PathTo(n: nat, s: Sys, task: Task, r: PublishReading) {
    && (0 < n ==> !Stops(ConstructionFailed, s, task, r)) && (1 < n ==> !Stops(JoinTooLate, s, task, r))
    && (2 < n ==> !Stops(Expired, s, task, r)) && (3 < n ==> !Stops(SessionOver, s, task, r))
    && (4 < n ==> !Stops(SourceMoved, s, task, r)) && (5 < n ==> !Stops(GraphMoved, s, task, r))
    && (6 < n ==> !Stops(CandidateFailed, s, task, r)) && (7 < n ==> !Stops(GroupRetired, s, task, r))
    && (8 < n ==> !Stops(NotInserted, s, task, r))
  }

  lemma FirstHasPath(o: Obstacle, s: Sys, task: Task, r: PublishReading)
    requires FirstObstacle(o, s, task, r)
    ensures PathTo(Place(o), s, task, r)
  {
    hide Stops;
    assert Place(ConstructionFailed) == 0 && Place(JoinTooLate) == 1 && Place(Expired) == 2 && Place(SessionOver) == 3;
    assert Place(SourceMoved) == 4 && Place(GraphMoved) == 5 && Place(CandidateFailed) == 6 && Place(GroupRetired) == 7;
    assert Place(NotInserted) == 8;
  }

  /** A constructed candidate is not published exactly if something stops it, and the first obstacle in order
      is the one reported. */
  lemma ObjectionMeans(s: Sys, task: Task, r: PublishReading)
    requires task.plan.Success?
    ensures Objection(s, task, r).None? <==> Free(s, task, r)
    ensures forall o :: FirstObstacle(o, s, task, r) ==> Objection(s, task, r) == Some(Cause(o, task, r))
  {
    forall o | FirstObstacle(o, s, task, r) ensures Objection(s, task, r) == Some(Cause(o, task, r)) {
      ObstacleIsReported(o, s, task, r);
    }
    if Objection(s, task, r).Some? {
      SomethingStops(s, task, r);
    } else {
      forall o ensures !Stops(o, s, task, r) {
        NothingStops(o, s, task, r);
      }
    }
  }

  lemma ObstacleIsReported(o: Obstacle, s: Sys, task: Task, r: PublishReading)
    requires task.plan.Success? && FirstObstacle(o, s, task, r)
    ensures Objection(s, task, r) == Some(Cause(o, task, r))
  {
    FirstHasPath(o, s, task, r);
  }

  lemma SomethingStops(s: Sys, task: Task, r: PublishReading)
    requires task.plan.Success? && Objection(s, task, r).Some?
    ensures !Free(s, task, r)
  {
    assert Stops(ConstructionFailed, s, task, r) || Stops(JoinTooLate, s, task, r) || Stops(Expired, s, task, r)
           || Stops(SessionOver, s, task, r) || Stops(SourceMoved, s, task, r) || Stops(GraphMoved, s, task, r)
           || Stops(CandidateFailed, s, task, r) || Stops(GroupRetired, s, task, r) || Stops(NotInserted, s, task, r);
  }

  lemma NothingStops(o: Obstacle, s: Sys, task: Task, r: PublishReading)
    requires task.plan.Success? && Objection(s, task, r).None?
    ensures !Stops(o, s, task, r)
  {
  }

  // ---- The look at a constructed candidate ----

  // The output as agreed on: of the candidate's generation, in its group, with its deadline and lease.
  predicate AsAgreed(o: Output, task: Task, r: PublishReading)
    requires task.plan.Success?
  {
    && o.groupId == Target(task) && o.generation == task.generation && o.deadline == Some(task.deadline)
    && o.nodes == task.plan.value.nodes && o.lease == task.lease && o.startedAt == r.startedAt
    && o.startupWait == r.startupWait && o.state.Waiting? && o.error.None?
  }

  // How far its publication got.
  predicate Reached(s: Sys, t: Sys, task: Task, ending: Ending)
    requires task.plan.Success? && task.id in t.outputs && Target(task) in t.groups
  {
    var o, group := t.outputs[task.id], t.groups[Target(task)];
    var drawn := s.graph + task.plan.value.nodes
                 + if task.plan.value.encoding.NewGroup? then task.plan.value.encoding.nodes else {};
    match ending
    case OutputNotSubscribed(f) =>
      !o.published && o.branch.fault == Some(f) && t.graph == s.graph && t.version == s.version && t.told == s.told
    case GroupNotSubscribed(f) =>
      && !o.published && o.branch.fault.None? && group.branch.fault == Some(f) && t.graph == s.graph
      && t.version == s.version && t.told == s.told
    case RaisedAfterGraph(f) =>
      && o.published && o.branch.fault == Some(f) && group.graphPublished && t.graph == drawn
      && t.version == s.version + 1 && t.told == s.told
    case _ =>
      && o.published && o.branch == FreshBranch(o.branch.metrics) && o.stage.Runtime? && group.graphPublished
      && t.graph == drawn && t.version == s.version + 1
      && t.told == C.Then(s.told, Snapshot(task.id, Waiting, Runtime, None))
  }

  lemma InsertedAsAgreed(s: Sys, task: Task, r: PublishReading)
    requires task.plan.Success? && Target(task) in s.groups && !r.ending.OutputNotInserted?
    requires task.graph == s.graph
    requires task.plan.value.encoding.NewGroup? ==>
               s.groups[Target(task)].branch.fault.None? && s.groups[Target(task)].branch.state.Active?
    ensures var t := InsertOutput(s, task, r);
            && task.id in t.outputs && AsAgreed(t.outputs[task.id], task, r)
            && Target(task) in t.groups && Reached(s, t, task, EndingFor(task, r.ending))
            && t.groups[Target(task)].outputCount == s.groups[Target(task)].outputCount + 1
            && t.groups[Target(task)].generation == s.groups[Target(task)].generation
            && (task.id in s.ctl.table && EndingFor(task, r.ending).Completed? ==>
                  task.id in t.ctl.table && t.ctl.table[task.id] == Snapshot(task.id, Waiting, Runtime, None))
            && t.terminal == s.terminal && t.prep == s.prep
  {
  }

  lemma SettlesFree(s: Sys, r: PublishReading)
    requires s.prep.Some? && s.prep.value.plan.Success? && Objection(s, s.prep.value, r).None?
    ensures var u := JoinGroup(s, s.prep.value, r);
            Target(s.prep.value) in u.groups && Settle(s, r) == InsertOutput(u, s.prep.value, r)
  {
    hide InsertOutput;
  }

  lemma JoinedGroupIs(s: Sys, task: Task, r: PublishReading)
    requires task.plan.Success? && Target(task) in JoinGroup(s, task, r).groups
    ensures var u, g := JoinGroup(s, task, r), Target(task);
            && u == s.(groups := u.groups, changingGroup := u.changingGroup)
            && (task.plan.value.encoding.NewGroup? ==>
                  && u.groups[g].branch == FreshBranch(r.traffic) && u.groups[g].outputCount == 0
                  && u.groups[g].generation == task.generation)
            && (task.plan.value.encoding.ExistingGroup? ==> u == s)
  {
  }

  /** A constructed candidate nothing stops becomes an output as agreed, in a group of the source's own
      generation, as far as its publication got; if all went well its nodes join the graph and it is told and
      listed Waiting. */
  lemma FreeCandidateIsPublished(s: Sys, r: PublishReading)
    requires Valid(s) && s.prep.Some? && s.prep.value.exchange.stage.Constructed? && Free(s, s.prep.value, r)
    ensures var task, t := s.prep.value, Apply(s, Constructed(r));
            && task.plan.Success? && r.generation == Some(task.generation)
            && task.id in t.outputs && AsAgreed(t.outputs[task.id], task, r)
            && Target(task) in t.groups && Reached(s, t, task, EndingFor(task, r.ending))
            && t.groups[Target(task)].outputCount ==
               1 + (if Target(task) in s.groups then s.groups[Target(task)].outputCount else 0)
            && (task.plan.value.encoding.NewGroup? ==>
                  Target(task) !in s.groups && t.groups[Target(task)].generation == task.generation)
            && (EndingFor(task, r.ending).Completed? ==>
                  task.id in t.ctl.table && t.ctl.table[task.id] == Snapshot(task.id, Waiting, Runtime, None))
            && t.terminal.None? && t.prep.Some? && t.prep.value.exchange.release && t.prep.value.lease == 0
  {
    hide Valid, Free, Objection, Settle, InsertOutput, JoinGroup, Reached, AsAgreed, EndingFor;
    var task := s.prep.value;
    ConstructedFacts(s);
    FreeIsCurrent(s, task, r);
    ObjectionMeans(s, task, r);
    SettlesFree(s, r);
    var u := JoinGroup(s, task, r);
    JoinedGroupIs(s, task, r);
    InsertedAsAgreed(u, task, r);
    var v := InsertOutput(u, task, r);
    ReleasedAlike(s, u, v, task, EndingFor(task, r.ending), ReleaseWorker(v).(unpolled := v.groups.Keys));
  }

  lemma FreeIsCurrent(s: Sys, task: Task, r: PublishReading)
    requires Free(s, task, r)
    ensures task.version == s.version && r.generation == Some(task.generation) && !r.ending.OutputNotInserted?
  {
    assert !Stops(GraphMoved, s, task, r) && !Stops(SourceMoved, s, task, r) && !Stops(NotInserted, s, task, r);
  }

  lemma ReleasedAlike(s: Sys, u: Sys, v: Sys, task: Task, ending: Ending, t: Sys)
    requires task.plan.Success? && task.id in v.outputs && Target(task) in v.groups && Reached(u, v, task, ending)
    requires u.graph == s.graph && u.version == s.version && u.told == s.told
    requires t.outputs == v.outputs && t.groups == v.groups && t.graph == v.graph && t.version == v.version
    requires t.told == v.told
    ensures Reached(s, t, task, ending)
  {
  }

  lemma ConstructedFacts(s: Sys)
    requires Valid(s) && s.prep.Some? && s.prep.value.exchange.stage.Constructed?
    ensures var task := s.prep.value;
            && task.plan.Success? && task.id !in s.outputs && s.terminal.None? && task.id in s.ctl.table
            && (task.version == s.version ==> task.graph == s.graph)
            && (task.plan.value.encoding.NewGroup? ==> task.target !in s.groups)
  {
    CandidateIsNew(s);
  }

  /** One that something stops is rejected for the first obstacle: Failed is told and listed, Retired is to
      follow, and no output, group or node of the graph was there before or is afterwards on its account. */
  lemma StoppedCandidateIsRejected(s: Sys, r: PublishReading, o: Obstacle)
    requires Valid(s) && s.prep.Some? && s.prep.value.exchange.stage.Constructed?
    requires FirstObstacle(o, s, s.prep.value, r)
    ensures var task, f, t := s.prep.value, Cause(o, s.prep.value, r), Apply(s, Constructed(r));
            && t.told == C.Then(s.told, Rejection(task.id, f)) && t.terminal == Some(Dismissal(task.id, f))
            && task.id in t.ctl.table && t.ctl.table[task.id] == Rejection(task.id, f)
            && t.outputs == s.outputs && t.graph == s.graph && t.version == s.version && t.reserved == s.reserved
            && t.prep.Some? && t.prep.value.exchange.release
            && (forall g :: g in t.groups && g !in s.groups ==>
                  && o.NotInserted? && t.terminalGroup == Some(g) && t.groups[g].draining
                  && t.groups[g].branch.fault == Some(f) && t.groups[g].outputCount == 0)
  {
    var task := s.prep.value;
    ConstructedFacts(s);
    ObstacleIsReported(o, s, task, r);
    assert s.changingGroup.None?;
    hide Valid;
    var f := Cause(o, task, r);
    if o.NotInserted? {
      FirstHasPath(o, s, task, r);
      NotInsertedIsRejected(s, r);
    } else {
      NotInsertedComesLast(s, task, r, o);
      hide FirstObstacle, Objection;
      RefusedIsRejected(s, r, f);
    }
  }

  lemma NotInsertedComesLast(s: Sys, task: Task, r: PublishReading, o: Obstacle)
    requires task.plan.Success? && FirstObstacle(o, s, task, r) && !o.NotInserted?
    ensures var f := Cause(o, task, r);
            if task.broken.Some? then f == task.broken.value else Refusal(s, task, r) == Some(f)
  {
    FirstHasPath(o, s, task, r);
  }

  lemma RefusedIsRejected(s: Sys, r: PublishReading, f: Fault)
    requires s.prep.Some? && s.prep.value.exchange.stage.Constructed? && s.prep.value.plan.Success?
    requires s.changingGroup.None? && s.prep.value.id in s.ctl.table
    requires if s.prep.value.broken.Some? then f == s.prep.value.broken.value
             else Refusal(s, s.prep.value, r) == Some(f)
    ensures var task, t := s.prep.value, Apply(s, Constructed(r));
            && t.told == C.Then(s.told, Rejection(task.id, f)) && t.terminal == Some(Dismissal(task.id, f))
            && task.id in t.ctl.table && t.ctl.table[task.id] == Rejection(task.id, f)
            && t.outputs == s.outputs && t.graph == s.graph && t.version == s.version && t.reserved == s.reserved
            && t.groups == s.groups && t.prep.Some? && t.prep.value.exchange.release
  {
    hide Reject, Refusal;
    var task := s.prep.value;
    RejectSays(s, task.id, f);
    RejectIsQuiet(s, task.id, f);
    RejectLeavesGroups(s, task.id, f);
    RejectReservesNothing(s, task.id, f);
    assert Settle(s, r) == Reject(s, task.id, f);
  }

  lemma NotInsertedIsRejected(s: Sys, r: PublishReading)
    requires s.prep.Some? && s.prep.value.exchange.stage.Constructed? && s.prep.value.plan.Success?
    requires s.prep.value.id in s.ctl.table && s.changingGroup.None?
    requires PathTo(8, s, s.prep.value, r) && r.ending.OutputNotInserted?
    ensures var task, f, t := s.prep.value, r.ending.fault, Apply(s, Constructed(r));
            && t.told == C.Then(s.told, Rejection(task.id, f)) && t.terminal == Some(Dismissal(task.id, f))
            && task.id in t.ctl.table && t.ctl.table[task.id] == Rejection(task.id, f)
            && t.outputs == s.outputs && t.graph == s.graph && t.version == s.version && t.reserved == s.reserved
            && t.prep.Some? && t.prep.value.exchange.release
            && (forall g :: g in t.groups && g !in s.groups ==>
                  && t.terminalGroup == Some(g) && t.groups[g].draining && t.groups[g].branch.fault == Some(f)
                  && t.groups[g].outputCount == 0)
  {
    var task, f := s.prep.value, r.ending.fault;
    var u := JoinGroup(s, task, r);
    SettlesNotInserted(s, r);
    hide Reject, JoinGroup, PathTo, Settle;
    RejectSays(u, task.id, f);
    RejectIsQuiet(u, task.id, f);
    RejectReservesNothing(u, task.id, f);
    AbandonedGroup(s, task, r, f);
  }

  lemma SettlesNotInserted(s: Sys, r: PublishReading)
    requires s.prep.Some? && s.prep.value.plan.Success? && PathTo(8, s, s.prep.value, r) && r.ending.OutputNotInserted?
    ensures Settle(s, r) == Reject(JoinGroup(s, s.prep.value, r), s.prep.value.id, r.ending.fault)
  {
    hide Reject;
  }

  lemma AbandonedGroup(s: Sys, task: Task, r: PublishReading, f: Fault)
    requires task.plan.Success? && s.changingGroup.None?
    ensures var u := JoinGroup(s, task, r);
            var v := Reject(u, task.id, f);
            && u.told == s.told && u.prep == s.prep && u.graph == s.graph && u.version == s.version
            && u.reserved == s.reserved && u.outputs == s.outputs && u.ctl == s.ctl
            && (forall g :: g in v.groups && g !in s.groups ==>
                  && v.terminalGroup == Some(g) && v.groups[g].draining && v.groups[g].branch.fault == Some(f)
                  && v.groups[g].outputCount == 0)
  {
  }
}
