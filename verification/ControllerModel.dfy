/**
 The output run controller as a transition system. `Apply` performs one step of the control thread,
 of the preparation worker, of a calling thread or of a running branch; what a step reads from its
 surroundings (clocks, failures, planning results) is an argument of the step, so a run is a list
 of steps and every interleaving of the threads is such a list.
 */
module ControllerModel {
  import opened Wrappers
  import opened OutputTypes
  import B = RuntimeBranch
  import C = ControlModel
  import X = PreparationExchange

  // ---- State ----

  // `published`: the output's nodes were put into the graph (kept by the model only).
  // `deadline`: None for the initial output, which has no transaction deadline. `lease`: the egress
  // bandwidth its branch has reserved.
  datatype Output = Output(
    groupId: nat, branch: B.Branch, nodes: set<nat>, generation: nat, startedAt: nat, startupWait: nat,
    deadline: Option<nat>, state: OutputState, stage: Stage, error: Option<Error>, published: bool, lease: nat)

  datatype Group = Group(
    generation: nat, branch: B.Branch, nodes: set<nat>, outputCount: nat, draining: bool, graphPublished: bool)

  datatype Encoding = NewGroup(nodes: set<nat>) | ExistingGroup(groupId: nat)

  // What planning produces: the nodes of the new output and the encoding it uses.
  datatype Plan = Plan(nodes: set<nat>, encoding: Encoding)

  // `version` and `graph` are the optimistic snapshot; `groups` were available when it was taken.
  // `idle` counts worker turns that passed without a move; `lease` is what the candidate itself holds of
  // the egress bandwidth.
  datatype Task = Task(
    id: nat, version: nat, graph: set<nat>, groups: set<nat>, generation: nat, deadline: nat, expired: bool,
    exchange: X.Exchange, idle: nat, plan: Result<Plan, Error>, target: nat, broken: Option<Fault>,
    lease: nat)

  // `unpolled`: the groups the control thread has yet to poll, after publishing a candidate, before it
  // looks at the outputs again (its position in poll(), kept by the model only). `told`: every snapshot
  // the observer has been given. `reserved`: the egress account's counter.
  datatype Sys = Sys(
    ctl: C.Control,
    outputs: map<nat, Output>,
    groups: map<nat, Group>,
    nextGroup: nat,
    shared: set<nat>,
    graph: set<nat>,
    version: nat,
    prep: Option<Task>,
    changing: Option<nat>,
    terminal: Option<Snapshot>,
    terminalGroup: Option<nat>,
    changingGroup: Option<nat>,
    retired: nat,
    unpolled: set<nat>,
    clock: nat,
    finishing: bool,
    failure: Option<Error>,
    told: C.History,
    capacity: nat,
    reserved: int)

  // Errors the controller itself raises.
  const EXPIRED: Error := 1
  const CANCELLED: Error := 2
  const NO_BRANCH: Error := 3
  const NO_MEDIA: Error := 4
  const IDS_EXHAUSTED: Error := 5
  const OVER_CAPACITY: Error := 6

  // ---- Building blocks ----

  // The table is updated, if it lists the output, and the observer told in any case.
  function Publish(s: Sys, snapshot: Snapshot): Sys {
    s.(ctl := C.Publish(s.ctl, snapshot), told := C.Then(s.told, snapshot))
  }

  function SnapshotOf(id: nat, o: Output): Snapshot {
    Snapshot(id, o.state, o.stage, o.error)
  }

  // The group a rejected transaction had just registered is failed and waited for.
  function AbandonGroup(s: Sys, f: Fault): Sys {
    if s.changingGroup.None? then s
    else
      var g := s.changingGroup.value;
      var t := s.(changingGroup := None);
      if g in s.groups && s.groups[g].outputCount == 0 then
        t.(groups := s.groups[g := s.groups[g].(draining := true, branch := B.Fail(s.groups[g].branch, f))],
           terminalGroup := Some(g))
      else t
  }

  function Reject(s: Sys, id: nat, f: Fault): Sys {
    AbandonGroup(
      Publish(s, Snapshot(id, Failed, f.stage, Some(f.error))).(
        terminal := Some(Snapshot(id, Retired, f.stage, Some(f.error)))), f)
  }

  // The deferred Retired notification, sent once nothing of the change is left.
  function Notify(s: Sys): Sys {
    if s.terminal.None? || s.prep.Some? || (s.terminalGroup.Some? && s.terminalGroup.value in s.groups) then s
    else
      var terminal := s.terminal.value;
      Publish(
        s.(ctl := C.CompleteChange(s.ctl), terminal := None, terminalGroup := None,
           changing := if s.changing == Some(terminal.id) then None else s.changing),
        terminal)
  }

  // The groups a preparation may reuse; `witnessed` have a witness and codec parameters.
  function Available(s: Sys, witnessed: set<nat>): set<nat> {
    set g | g in s.groups && g in witnessed && Reusable(s, g) && s.groups[g].graphPublished
  }

  predicate Reusable(s: Sys, g: nat) {
    g in s.groups && !s.groups[g].draining && s.groups[g].branch.fault.None? && s.groups[g].branch.state.Active?
  }

  // ---- Adding an output ----

  datatype BeginReading = BeginReading(
    elapsed: nat, timeout: nat, generation: nat, witnessed: set<nat>, missing: Option<Fault>, noWorker: Option<Fault>)

  // The preparation takes its snapshot and is announced.
  function Begun(s: Sys, id: nat, r: BeginReading): Sys {
    var now := s.clock + r.elapsed;
    var task := Task(id, s.version, s.graph, Available(s, r.witnessed), r.generation, now + r.timeout, false,
                     X.FRESH, 0, Failure(CANCELLED), 0, None, 0);
    Publish(s.(clock := now, prep := Some(task)), Snapshot(id, Preparing, Preparation, None))
  }

  // `missing` is a source fact not yet known; `noWorker` a worker that could not be started.
  function BeginPreparation(s: Sys, id: nat, r: BeginReading): Sys {
    if r.missing.Some? then Reject(s, id, r.missing.value)
    else if r.noWorker.Some? then Reject(Begun(s, id, r).(prep := None), id, r.noWorker.value)
    else Begun(s, id, r)
  }

  datatype AdmitReading = AdmitReading(
    elapsed: nat, early: Option<Fault>, generation: Option<nat>, unfit: Option<Fault>, bytes: nat, late: Option<Fault>)

  // The group to use, or why the candidate is refused: `early` is a join-wait refusal, `unfit` anything
  // found before a group is chosen.
  function Choice(s: Sys, task: Task, r: AdmitReading): Result<nat, Fault> {
    if task.plan.Failure? then Failure(Fault(task.plan.error, Preparation))
    else if task.expired || s.clock + r.elapsed >= task.deadline then Failure(Fault(EXPIRED, Preparation))
    else if r.early.Some? then Failure(r.early.value)
    else if s.finishing || r.generation != Some(task.generation) || s.version != task.version then
      Failure(Fault(CANCELLED, Publication))
    else if r.unfit.Some? then Failure(r.unfit.value)
    else
      var g := Target(task.(target := s.nextGroup));
      if task.plan.value.encoding.NewGroup? && g == MAX_ID then Failure(Fault(IDS_EXHAUSTED, Preparation))
      else if task.plan.value.encoding.ExistingGroup?
              && (!Reusable(s, g) || s.groups[g].generation != task.generation) then
        Failure(Fault(CANCELLED, Publication))
      else Success(g)
  }

  // The egress account has room for this many bytes per second.
  predicate Fits(s: Sys, bytes: nat) {
    bytes != 0 && s.reserved <= s.capacity && bytes <= s.capacity - s.reserved
  }

  // With a group chosen, the bandwidth is reserved; `late` is any other refused resource, or an
  // exception, and gives back what was reserved.
  function Admission(s: Sys, task: Task, r: AdmitReading): Result<nat, Fault> {
    var choice := Choice(s, task, r);
    if choice.Failure? then choice
    else if !Fits(s, r.bytes) then Failure(Fault(OVER_CAPACITY, Planning))
    else if r.late.Some? then Failure(r.late.value)
    else choice
  }

  function Target(task: Task): nat
    requires task.plan.Success?
  {
    match task.plan.value.encoding
    case NewGroup(_) => task.target
    case ExistingGroup(g) => g
  }

  // A new group's identity is taken before its resources are reserved, so a refusal may burn it.
  predicate TakesGroupId(s: Sys, task: Task, r: AdmitReading) {
    task.plan.Success? && task.plan.value.encoding.NewGroup? && Choice(s, task, r).Success?
  }

  // The state in which a Planned candidate is judged.
  function Judging(s: Sys, r: AdmitReading): Sys
    requires s.prep.Some?
  {
    s.(clock := s.clock + r.elapsed,
       nextGroup := if TakesGroupId(s, s.prep.value, r) then s.nextGroup + 1 else s.nextGroup)
  }

  function Decide(s: Sys, task: Task, verdict: Result<nat, Fault>, bytes: nat): Sys {
    match verdict
    case Failure(f) => Reject(s, task.id, f)
    case Success(g) =>
      s.(reserved := s.reserved + bytes,
         prep := Some(task.(target := g, lease := bytes, exchange := X.Construct(task.exchange))))
  }

  function AdmitPrepared(s: Sys, r: AdmitReading): Sys
    requires s.prep.Some?
  {
    Decide(Judging(s, r), s.prep.value, Admission(s, s.prep.value, r), r.bytes)
  }

  // A released candidate keeps its lease, unless it has been published with its output.
  function LetGo(task: Task, published: bool): Task {
    task.(exchange := X.Release(task.exchange), lease := if published then 0 else task.lease)
  }

  function ReleaseWorker(s: Sys): Sys
    requires s.prep.Some?
  {
    s.(prep := Some(LetGo(s.prep.value, s.prep.value.id in s.outputs)))
  }

  // One look at a Planned candidate: admit it, or reject it and release its worker.
  function LookAtPlanned(s: Sys, r: AdmitReading): Sys {
    if s.prep.None? || !s.prep.value.exchange.stage.Planned? then s
    else
      var t := AdmitPrepared(s, r);
      if t.prep.Some? && t.prep.value.exchange.stage.Planned? then ReleaseWorker(t) else t
  }

  // How far a publication got: an exception or a refused subscription stops it early.
  datatype Ending =
    | Completed
    | OutputNotInserted(fault: Fault)
    | OutputNotSubscribed(fault: Fault)
    | GroupNotSubscribed(fault: Fault)
    | RaisedAfterGraph(fault: Fault)

  datatype PublishReading = PublishReading(
    refused: Option<Fault>, generation: Option<nat>, candidate: Option<Fault>, startedAt: nat, startupWait: nat,
    traffic: nat, ending: Ending)

  function FreshBranch(traffic: nat): B.Branch {
    B.Branch(B.Active, None, 0, traffic)
  }

  // Why the constructed candidate is refused, if it is.
  function Refusal(s: Sys, task: Task, r: PublishReading): Option<Fault>
    requires task.plan.Success?
  {
    if r.refused.Some? then r.refused
    else if task.expired || s.finishing || r.generation != Some(task.generation) || s.version != task.version then
      Some(Fault(CANCELLED, Publication))
    else if r.candidate.Some? then r.candidate
    else if task.plan.value.encoding.ExistingGroup? && !Reusable(s, Target(task)) then
      Some(Fault(CANCELLED, Publication))
    else None
  }

  function PublishPrepared(s: Sys, r: PublishReading): Sys
    requires s.prep.Some? && s.prep.value.plan.Success?
  {
    var task := s.prep.value;
    match Refusal(s, task, r)
    case Some(f) => Reject(s, task.id, f)
    case None =>
      var t := JoinGroup(s, task, r);
      if r.ending.OutputNotInserted? then Reject(t, task.id, r.ending.fault) else InsertOutput(t, task, r)
  }

  // A new group is registered, memberless for the moment; an existing one is already there.
  function JoinGroup(s: Sys, task: Task, r: PublishReading): (t: Sys)
    requires task.plan.Success?
    ensures task.plan.value.encoding.NewGroup? ==> Target(task) in t.groups
  {
    match task.plan.value.encoding
    case NewGroup(nodes) =>
      s.(groups := s.groups[task.target := Group(task.generation, FreshBranch(r.traffic), nodes, 0, false, false)],
         changingGroup := Some(task.target))
    case ExistingGroup(_) => s
  }

  // How the publication of this candidate ends: only a new group has a frame input to subscribe.
  function EndingFor(task: Task, ending: Ending): Ending
    requires task.plan.Success?
  {
    if ending.GroupNotSubscribed? && !task.plan.value.encoding.NewGroup? then Completed else ending
  }

  // The output as it is left in `outputs`: an exception or a refused subscription has failed it.
  function NewOutput(task: Task, r: PublishReading): Output
    requires task.plan.Success?
  {
    var o := Output(Target(task), FreshBranch(r.traffic), task.plan.value.nodes, task.generation, r.startedAt,
                    r.startupWait, Some(task.deadline), Waiting, Publication, None, false, task.lease);
    match EndingFor(task, r.ending)
    case OutputNotSubscribed(f) => o.(branch := B.Fail(o.branch, f))
    case GroupNotSubscribed(_) => o
    case RaisedAfterGraph(f) => o.(published := true, stage := f.stage, branch := B.Fail(o.branch, f))
    case _ => o.(published := true, stage := Runtime)
  }

  // Its group, one member larger.
  function JoinedGroup(group: Group, task: Task, r: PublishReading): Group
    requires task.plan.Success?
  {
    var larger := group.(outputCount := group.outputCount + 1);
    match EndingFor(task, r.ending)
    case OutputNotSubscribed(_) => larger
    case GroupNotSubscribed(f) => larger.(branch := B.Fail(group.branch, f))
    case _ => larger.(graphPublished := true)
  }

  // The graph the candidate was built as: its snapshot and its own nodes.
  function CandidateGraph(task: Task): set<nat>
    requires task.plan.Success?
  {
    task.graph + task.plan.value.nodes
    + if task.plan.value.encoding.NewGroup? then task.plan.value.encoding.nodes else {}
  }

  // The new output joins its group; on success the candidate's graph replaces the current one.
  function Inserted(s: Sys, task: Task, r: PublishReading): Sys
    requires task.plan.Success? && Target(task) in s.groups
  {
    var o := NewOutput(task, r);
    var g := Target(task);
    s.(outputs := s.outputs[task.id := o],
       groups := s.groups[g := JoinedGroup(s.groups[g], task, r)],
       changingGroup := None,
       graph := if o.published then CandidateGraph(task) else s.graph,
       version := if o.published then s.version + 1 else s.version)
  }

  function InsertOutput(s: Sys, task: Task, r: PublishReading): Sys
    requires task.plan.Success? && Target(task) in s.groups
  {
    var t := Inserted(s, task, r);
    if EndingFor(task, r.ending).Completed? then Publish(t, SnapshotOf(task.id, NewOutput(task, r))) else t
  }

  // A constructed candidate is published or rejected.
  function Settle(s: Sys, r: PublishReading): Sys
    requires s.prep.Some?
  {
    var task := s.prep.value;
    if task.broken.Some? || task.plan.Failure? then
      Reject(s, task.id, if task.broken.Some? then task.broken.value else Fault(CANCELLED, Publication))
    else PublishPrepared(s, r)
  }

  // One look at a Constructed candidate: settle it, then release its worker.
  function LookAtConstructed(s: Sys, r: PublishReading): Sys {
    if s.prep.None? || !s.prep.value.exchange.stage.Constructed? then s
    else
      var t := Settle(s, r);
      if t.prep.Some? then ReleaseWorker(t).(unpolled := t.groups.Keys) else t
  }

  // The startup budget ran out: callers see Failed now, the worker keeps what it owns.
  function Expire(s: Sys, elapsed: nat): Sys {
    var now := s.clock + elapsed;
    if s.prep.None? || s.prep.value.expired || now < s.prep.value.deadline then s
    else
      Publish(s.(clock := now, prep := Some(s.prep.value.(expired := true))),
              Snapshot(s.prep.value.id, Failed, Preparation, Some(EXPIRED)))
  }

  // With the worker gone, so is whatever the candidate still held.
  function Reap(s: Sys): Sys {
    if s.prep.Some? && s.prep.value.exchange.worker.Done? then
      s.(prep := None, reserved := s.reserved - s.prep.value.lease)
    else s
  }

  // ---- Removing, failing and retiring outputs ----

  // `generation` is the source generation if it could be read.
  function DrainOutput(s: Sys, id: nat, generation: Option<nat>, closing: Option<Fault>): Sys
    requires id in s.outputs
  {
    var o := s.outputs[id].(
      generation := if generation.Some? then generation.value else s.outputs[id].generation, stage := Drain);
    var (branch, accepted) := B.BeginDrain(o.branch, closing);
    if !accepted then
      s.(outputs := s.outputs[id := o.(branch := B.Fail(branch, Fault(CANCELLED, Drain)))])
    else
      var draining := o.(branch := branch, state := Draining);
      Publish(s.(outputs := s.outputs[id := draining]), SnapshotOf(id, draining))
  }

  datatype OutputReading = OutputReading(
    first: nat, second: nat, third: nat, fourth: nat, active: bool, evidence: Option<nat>,
    during: Option<Fault>, poll: B.PollReading, after: Option<Fault>)

  predicate Before(now: int, deadline: Option<nat>) {
    deadline.None? || now < deadline.value
  }

  // A waiting output with ready evidence of its own generation, in time, becomes Running.
  function Promote(s: Sys, id: nat, r: OutputReading): Sys
    requires id in s.outputs
  {
    var o := s.outputs[id];
    var now := s.clock + r.first;
    var t := s.(clock := now + r.second);
    if o.state.Waiting? && s.prep.None? && o.branch.fault.None? && Before(now, o.deadline)
       && t.clock - o.startedAt < o.startupWait && r.active && r.evidence == Some(o.generation)
    then
      var up := o.(state := Running, stage := Runtime);
      var u := t.(outputs := s.outputs[id := up]);
      var v := if s.changing == Some(id) then u.(ctl := C.CompleteChange(s.ctl), changing := None) else u;
      Publish(v, SnapshotOf(id, up))
    else t
  }

  // An output still waiting at its deadline is failed.
  function FailOverdue(s: Sys, id: nat, r: OutputReading): Sys
    requires id in s.outputs
  {
    var o := s.outputs[id];
    var now := s.clock + r.third;
    var t := s.(clock := now + r.fourth);
    if o.state.Waiting? && (!Before(now, o.deadline) || t.clock - o.startedAt >= o.startupWait) then
      t.(outputs := s.outputs[id := o.(branch := B.Fail(o.branch, Fault(NO_MEDIA, Runtime)))])
    else t
  }

  function Observe(b: B.Branch, f: Option<Fault>): B.Branch {
    if f.Some? then B.Record(b, f.value) else b
  }

  // The branch is polled; its workers may record a failure before and after.
  function PollBranch(s: Sys, id: nat, r: OutputReading): (Sys, bool)
    requires id in s.outputs
  {
    var o := s.outputs[id];
    var (branch, retired) := B.Poll(Observe(o.branch, r.during), r.poll);
    (s.(outputs := s.outputs[id := o.(branch := Observe(branch, r.after))]), retired)
  }

  function NoteFailure(s: Sys, id: nat): Sys
    requires id in s.outputs
  {
    var o := s.outputs[id];
    if o.branch.fault.None? || o.state.Failed? then s
    else
      var f := o.branch.fault.value;
      var down := o.(state := Failed, stage := f.stage, error := Some(f.error));
      Publish(s.(outputs := s.outputs[id := down],
                 failure := if s.finishing && s.failure.None? then Some(f.error) else s.failure),
              SnapshotOf(id, down))
  }

  // A retired output leaves the outputs, its group's count and the graph.
  function Leave(s: Sys, id: nat): Sys
    requires id in s.outputs
  {
    var o := s.outputs[id];
    s.(retired := s.retired + o.branch.metrics, graph := s.graph - o.nodes, version := s.version + 1,
       outputs := s.outputs - {id}, reserved := s.reserved - o.lease, groups := OneLess(s.groups, o.groupId))
  }

  // The group counts one member less.
  function OneLess(groups: map<nat, Group>, g: nat): map<nat, Group> {
    if g in groups && groups[g].outputCount > 0
    then groups[g := groups[g].(outputCount := groups[g].outputCount - 1)] else groups
  }

  // The end of a change may have to wait for its group or its preparation.
  function Conclude(s: Sys, terminal: Snapshot, g: nat): Sys {
    var last := g in s.groups && s.groups[g].outputCount == 0;
    if s.changing == Some(terminal.id) && (last || (s.prep.Some? && s.prep.value.id == terminal.id)) then
      s.(terminal := Some(terminal), terminalGroup := if last then Some(g) else s.terminalGroup)
    else
      var t := if s.changing == Some(terminal.id) then s.(ctl := C.CompleteChange(s.ctl), changing := None) else s;
      Publish(t, terminal)
  }

  function Retire(s: Sys, id: nat): Sys
    requires id in s.outputs
  {
    Conclude(Leave(s, id), SnapshotOf(id, s.outputs[id].(state := Retired)), s.outputs[id].groupId)
  }

  // Everything an iteration does to an output short of retiring it.
  function Examine(s: Sys, id: nat, r: OutputReading): (Sys, bool)
    requires id in s.outputs
  {
    var (t, retired) := PollBranch(FailOverdue(Promote(s, id, r), id, r), id, r);
    (NoteFailure(t, id), retired)
  }

  // One iteration of the loop over outputs.
  function PollOutput(s: Sys, id: nat, r: OutputReading): Sys {
    if id !in s.outputs || s.unpolled != {} then s
    else
      var (t, retired) := Examine(s, id, r);
      if retired && id in t.outputs then Retire(t, id) else t
  }

  // ---- Encoding groups ----

  datatype GroupReading = GroupReading(closing: Option<Fault>, poll: B.PollReading, after: Option<Fault>)

  // A failed group fails its members.
  function FailMembers(s: Sys, g: nat): Sys
    requires g in s.groups && s.groups[g].branch.fault.Some?
  {
    var f := s.groups[g].branch.fault.value;
    s.(outputs := map id | id in s.outputs ::
         if s.outputs[id].groupId == g && s.outputs[id].branch.fault.None?
         then s.outputs[id].(branch := B.Fail(s.outputs[id].branch, f)) else s.outputs[id])
  }

  // An unused group starts draining, once.
  function StartGroupDrain(group: Group, closing: Option<Fault>): Group {
    if group.draining then group
    else
      var marked := group.(draining := true);
      if group.branch.state.Active? then
        var (branch, accepted) := B.BeginDrain(group.branch, closing);
        marked.(branch := if accepted then branch else B.Fail(branch, Fault(CANCELLED, Drain)))
      else if group.branch.state.Prepared? then
        marked.(branch := B.Fail(group.branch, Fault(CANCELLED, Preparation)))
      else marked
  }

  // The pending notification reports a failure its group met while retiring.
  function AmendTerminal(s: Sys, g: nat, f: Option<Fault>): Sys {
    if s.terminalGroup == Some(g) && s.terminal.Some? && s.terminal.value.error.None? && f.Some? then
      var amended := s.terminal.value.(error := Some(f.value.error), stage := f.value.stage);
      Publish(s.(terminal := Some(amended)), amended.(state := Failed))
    else s
  }

  // While finishing, the first failure met is kept.
  function KeepFailure(s: Sys, f: Option<Fault>): Sys {
    if f.Some? && s.finishing && s.failure.None? then s.(failure := Some(f.value.error)) else s
  }

  function RemoveGroup(s: Sys, g: nat, group: Group): Sys {
    var t := s.(retired := s.retired + group.branch.metrics, groups := s.groups - {g});
    if group.graphPublished then t.(graph := s.graph - group.nodes, version := s.version + 1) else t
  }

  function EraseGroup(s: Sys, g: nat, group: Group): Sys {
    RemoveGroup(AmendTerminal(KeepFailure(s, group.branch.fault), g, group.branch.fault), g, group)
  }

  // An unused group after one poll, and whether it has retired.
  function Polled(group: Group, r: GroupReading): (Group, bool) {
    var started := StartGroupDrain(group, r.closing);
    var (branch, retired) := B.Poll(started.branch, r.poll);
    (started.(branch := Observe(branch, r.after)), retired)
  }

  function PollUnused(s: Sys, g: nat, r: GroupReading): Sys
    requires g in s.groups
  {
    var (polled, retired) := Polled(s.groups[g], r);
    if retired then EraseGroup(s, g, polled) else s.(groups := s.groups[g := polled])
  }

  // One iteration of the loop over groups.
  function PollGroup(s: Sys, g: nat, r: GroupReading): Sys {
    var s := s.(unpolled := s.unpolled - {g});
    if g !in s.groups then s
    else
      var t := if s.groups[g].branch.fault.Some? then FailMembers(s, g) else s;
      if s.groups[g].outputCount != 0 then t else PollUnused(t, g, r)
  }

  // ---- Taking commands, finishing ----

  datatype TakeReading = TakeReading(begin: BeginReading, generation: Option<nat>, closing: Option<Fault>)

  // The control thread may take a command, and there is one.
  predicate CanTake(s: Sys) {
    !s.finishing && s.prep.None? && s.terminal.None? && C.TakeChange(s.ctl).1.Some?
  }

  function Taken(s: Sys): Sys
    requires CanTake(s)
  {
    s.(ctl := C.TakeChange(s.ctl).0, changing := Some(C.TakeChange(s.ctl).1.value.id))
  }

  function Take(s: Sys, r: TakeReading): Sys {
    if !CanTake(s) then s
    else
      var change := C.TakeChange(s.ctl).1.value;
      if change.addition then Notify(BeginPreparation(Taken(s), change.id, r.begin))
      else if change.id !in s.outputs then Notify(Reject(Taken(s), change.id, Fault(NO_BRANCH, Drain)))
      else DrainOutput(Taken(s), change.id, r.generation, r.closing)
  }

  // finish() closes the mailbox and rejects the command still in it.
  function BeginFinish(s: Sys): Sys {
    var t := s.(finishing := true, ctl := C.SetEnabled(s.ctl, false));
    var (ctl, change) := C.TakeChange(t.ctl);
    Notify(if change.Some? then Reject(t.(ctl := ctl), change.value.id, Fault(CANCELLED, Publication)) else t)
  }

  // finish() fails an output (with the session's failure) or drains it.
  function FinishOutput(s: Sys, id: nat, cause: Option<Fault>, generation: Option<nat>, closing: Option<Fault>): Sys {
    if id !in s.outputs || !s.finishing then s
    else if cause.Some? then
      s.(outputs := s.outputs[id := s.outputs[id].(branch := B.Fail(s.outputs[id].branch, cause.value))])
    else if s.outputs[id].branch.state.Active? then DrainOutput(s, id, generation, closing)
    else s
  }

  // ---- The surroundings ----

  // Planning only appends nodes that are not in its snapshot, and reuses only a group it was given.
  predicate Conforms(task: Task, plan: Plan) {
    && plan.nodes !! task.graph
    && match plan.encoding
       case NewGroup(nodes) => nodes !! task.graph && nodes !! plan.nodes
       case ExistingGroup(g) => g in task.groups
  }

  datatype WorkerReading = WorkerReading(patience: nat, plan: Result<Plan, Error>, broken: Option<Fault>)

  // The worker's turn: it moves on after `patience` idle turns, producing a plan or a candidate.
  function Turn(task: Task, r: WorkerReading): Task {
    var moved := X.WorkerMove(task.exchange);
    if moved == task.exchange then task
    else if task.idle < r.patience then task.(idle := task.idle + 1)
    else
      task.(exchange := moved, idle := 0,
            plan := if !task.exchange.worker.Preparing? then task.plan
                    else if r.plan.Success? && !Conforms(task, r.plan.value) then Failure(CANCELLED) else r.plan,
            broken := if task.exchange.worker.Building? then r.broken else task.broken)
  }

  function WorkerTurn(s: Sys, r: WorkerReading): Sys {
    if s.prep.None? then s else s.(prep := Some(Turn(s.prep.value, r)))
  }

  function FaultedOutput(o: Output, f: Fault): Output {
    o.(branch := B.Record(o.branch, f))
  }

  function OutputFault(s: Sys, id: nat, f: Fault): Sys {
    if id !in s.outputs then s else s.(outputs := s.outputs[id := FaultedOutput(s.outputs[id], f)])
  }

  // A worker failure, or (hard) the controller failing the group's branch itself.
  function FaultedGroup(group: Group, f: Fault, hard: bool): Group {
    group.(branch := if hard then B.Fail(group.branch, f) else B.Record(group.branch, f))
  }

  function GroupFault(s: Sys, g: nat, f: Fault, hard: bool): Sys {
    if g !in s.groups then s else s.(groups := s.groups[g := FaultedGroup(s.groups[g], f, hard)])
  }

  function Busier(b: B.Branch, amount: nat): B.Branch {
    b.(metrics := b.metrics + amount)
  }

  function Traffic(s: Sys, id: nat, g: nat, amount: nat): Sys {
    var outputs := if id !in s.outputs then s.outputs else
      s.outputs[id := s.outputs[id].(branch := Busier(s.outputs[id].branch, amount))];
    var groups := if g !in s.groups then s.groups else
      s.groups[g := s.groups[g].(branch := Busier(s.groups[g].branch, amount))];
    s.(outputs := outputs, groups := groups)
  }

  // ---- Steps and runs ----

  datatype Step =
    // calling threads
    | CallAdd
    | CallRemove(id: nat)
    | CallStop
    // the preparation worker and the running branches
    | Work(work: WorkerReading)
    | OutputFails(id: nat, fault: Fault)
    | GroupFails(group: nat, fault: Fault, hard: bool)
    | Count(id: nat, group: nat, amount: nat)
    // the control thread
    | Budget(elapsed: nat)
    | Planned(admit: AdmitReading)
    | Constructed(publish: PublishReading)
    | Collect
    | PollGroupStep(group: nat, groupReading: GroupReading)
    | NotifyStep
    | PollOutputStep(id: nat, outputReading: OutputReading)
    | TakeStep(take: TakeReading)
    | FinishStep
    | FinishOutputStep(id: nat, cause: Option<Fault>, generation: Option<nat>, closing: Option<Fault>)

  // Steps of the other threads, which may fall between any two steps of the control thread.
  predicate Foreign(step: Step) {
    || step.CallAdd? || step.CallRemove? || step.CallStop?
    || step.Work? || step.OutputFails? || step.GroupFails? || step.Count?
  }

  function Apply(s: Sys, step: Step): Sys {
    match step
    case CallAdd => s.(ctl := C.AddOutput(s.ctl).0)
    case CallRemove(id) => s.(ctl := C.RemoveOutput(s.ctl, id).0)
    case CallStop => s.(ctl := C.RequestStop(s.ctl))
    case Work(r) => WorkerTurn(s, r)
    case OutputFails(id, f) => OutputFault(s, id, f)
    case GroupFails(g, f, hard) => GroupFault(s, g, f, hard)
    case Count(id, g, amount) => Traffic(s, id, g, amount)
    case Budget(elapsed) => Expire(s, elapsed)
    case Planned(r) => LookAtPlanned(s, r)
    case Constructed(r) => LookAtConstructed(s, r)
    case Collect => Reap(s)
    case PollGroupStep(g, r) => PollGroup(s, g, r)
    case NotifyStep => Notify(s)
    case PollOutputStep(id, r) => PollOutput(s, id, r)
    case TakeStep(r) => Take(s, r)
    case FinishStep => BeginFinish(s)
    case FinishOutputStep(id, cause, generation, closing) => FinishOutput(s, id, cause, generation, closing)
  }

  function Run(s: Sys, steps: seq<Step>): Sys
    decreases |steps|
  {
    if steps == [] then s else Run(Apply(s, steps[0]), steps[1..])
  }

  lemma {:induction false} RunAppend(s: Sys, first: seq<Step>, rest: seq<Step>)
    ensures Run(s, first + rest) == Run(Run(s, first), rest)
    decreases |first|
  {
    if first == [] {
      assert first + rest == rest;
    } else {
      assert (first + rest)[1..] == first[1..] + rest;
      RunAppend(Apply(s, first[0]), first[1..], rest);
    }
  }

  // A controller whose initial output has just been started: one output, one group.
  function Initial(shared: set<nat>, encoding: set<nat>, protocol: set<nat>, generation: nat, startedAt: nat,
                   startupWait: nat, traffic: nat, capacity: nat, lease: nat): Sys
  {
    var o := Output(1, FreshBranch(traffic), protocol, generation, startedAt, startupWait, None,
                    Waiting, Runtime, None, true, lease);
    var g := Group(generation, FreshBranch(traffic), encoding, 1, false, true);
    var registered := C.RegisterInitial(C.EMPTY).0;
    Sys(C.SetEnabled(C.Publish(registered, SnapshotOf(1, o)), true), map[1 := o], map[1 := g], 2,
        shared, shared + encoding + protocol, 0, None, None, None, None, None, 0, {}, startedAt, false, None,
        C.Then(C.Start, SnapshotOf(1, o)), capacity, lease)
  }
}
