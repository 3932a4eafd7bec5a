/** What ties the controller's structures together, in every reachable state. */
module ControllerInvariant {
  import opened Wrappers
  import opened OutputTypes
  import opened ControllerModel
  import B = RuntimeBranch
  import C = ControlModel
  import X = PreparationExchange

  /** The busy slot: the mailbox is busy exactly while an output is changing, and the changing output
      is held by the preparation, by the deferred notification or by the outputs. */
  ghost predicate Slot(s: Sys) {
    && (s.ctl.inProgress <==> s.changing.Some?)
    && (s.ctl.pending.Some? ==> s.changing.None?)
    && s.changingGroup.None?
    && (s.terminalGroup.Some? ==> s.terminal.Some?)
    && (s.changing.Some? ==> s.prep.Some? || s.terminal.Some? || s.changing.value in s.outputs)
    && (s.terminal.Some? ==>
          && s.changing == Some(s.terminal.value.id)
          && s.terminal.value.state.Retired?
          && s.terminal.value.id !in s.outputs)
    && (s.prep.Some? ==> PreparationHeld(s, s.prep.value))
  }

  // An unreleased preparation is all there is of its output; a released one has left something behind.
  ghost predicate PreparationHeld(s: Sys, task: Task) {
    && s.changing == Some(task.id)
    && X.Valid(task.exchange)
    && (task.exchange.construct ==> task.plan.Success?)
    && (if task.exchange.release then s.terminal.Some? || task.id in s.outputs
        else s.terminal.None? && task.id !in s.outputs)
  }

  function Members(outputs: map<nat, Output>, g: nat): set<nat> {
    set id | id in outputs && outputs[id].groupId == g
  }

  /** Group accounting: every output's group is registered, a group counts exactly its live outputs,
      and a draining group has none and is stopping. */
  ghost predicate Counted(outputs: map<nat, Output>, groups: map<nat, Group>, nextGroup: nat) {
    && (forall id :: id in outputs ==> outputs[id].groupId in groups && !outputs[id].branch.state.Prepared?)
    && (forall g :: g in groups ==>
          && 0 < g < nextGroup
          && groups[g].outputCount == |Members(outputs, g)|
          && (groups[g].draining ==> groups[g].outputCount == 0 && B.Stopping(groups[g].branch))
          && !groups[g].branch.state.Prepared?)
  }

  ghost predicate Grouped(s: Sys) {
    && 0 < s.nextGroup
    && Counted(s.outputs, s.groups, s.nextGroup)
    && (s.prep.Some? ==> TargetFresh(s.prep.value, s.groups, s.nextGroup))
    && (forall g :: g in s.unpolled ==> g < s.nextGroup)
  }

  // The candidate is about to register a new group.
  predicate BringsGroup(task: Task) {
    task.exchange.construct && !task.exchange.release && task.plan.Success? && task.plan.value.encoding.NewGroup?
  }

  ghost predicate TargetFresh(task: Task, groups: map<nat, Group>, nextGroup: nat) {
    BringsGroup(task) ==> 0 < task.target < nextGroup && task.target !in groups
  }

  // Who owns which nodes of the graph.
  function GroupNodes(groups: map<nat, Group>): map<nat, set<nat>> {
    map g | g in groups && groups[g].graphPublished :: groups[g].nodes
  }

  function OutputNodes(outputs: map<nat, Output>): map<nat, set<nat>> {
    map id | id in outputs && outputs[id].published :: outputs[id].nodes
  }

  function Union(owned: map<nat, set<nat>>): set<nat> {
    set k, n | k in owned && n in owned[k] :: n
  }

  // No node has two owners.
  ghost predicate Apart(owned: map<nat, set<nat>>) {
    forall i, j :: i in owned && j in owned && i != j ==> owned[i] !! owned[j]
  }

  /** No lost graph update: the graph is exactly the shared nodes and those of the published live
      groups and outputs, and an unchanged version means an unchanged graph. An output whose
      publication failed is the changing one, has failed or is about to be failed by its group, and
      owns no node of the graph. */
  ghost predicate Drawn(s: Sys) {
    && Covers(s.outputs, s.groups, s.shared, s.graph)
    && (forall id :: id in s.outputs && !s.outputs[id].published ==> s.changing == Some(id) && Doomed(s, s.outputs[id]))
    && (s.prep.Some? ==> SnapshotCurrent(s, s.prep.value))
  }

  ghost predicate Covers(outputs: map<nat, Output>, groups: map<nat, Group>, shared: set<nat>, graph: set<nat>) {
    var ofGroups, ofOutputs := Union(GroupNodes(groups)), Union(OutputNodes(outputs));
    && graph == shared + ofGroups + ofOutputs
    && shared !! ofGroups && shared !! ofOutputs && ofGroups !! ofOutputs
    && Apart(GroupNodes(groups)) && Apart(OutputNodes(outputs))
    && (forall id :: id in outputs && !outputs[id].published ==> outputs[id].nodes !! graph)
  }

  ghost predicate Doomed(s: Sys, o: Output) {
    || o.branch.fault.Some?
    || (o.groupId in s.unpolled && o.groupId in s.groups && s.groups[o.groupId].branch.fault.Some?
        && !o.branch.state.Retiring? && !o.branch.state.Gone?)
  }

  ghost predicate SnapshotCurrent(s: Sys, task: Task) {
    && task.version <= s.version
    && (task.version == s.version ==> task.graph == s.graph)
    && (task.plan.Success? ==> Conforms(task, task.plan.value))
    && (!task.exchange.release ==>
          forall g :: g in task.groups && g in s.groups ==> s.groups[g].graphPublished)
  }

  /** The snapshot table: it lists the live outputs and the one in transition, in order, and an
      output whose budget expired is listed Failed and past its deadline. */
  ghost predicate Listed(s: Sys) {
    && C.Sound(s.ctl) && C.Ordered(s.ctl.history)
    && (s.changing.Some? ==> 0 < s.changing.value < s.ctl.nextId)
    && (forall id :: id in s.ctl.table ==>
          id in s.outputs || s.changing == Some(id) || s.ctl.pending == Some(Change(id, true)))
    && (forall id :: id in s.outputs ==> OutputListed(s, id))
    && (s.ctl.pending.Some? && s.ctl.pending.value.addition ==> AdditionListed(s, s.ctl.pending.value.id))
    && (s.prep.Some? ==> TaskListed(s, s.prep.value))
  }

  ghost predicate OutputListed(s: Sys, id: nat)
    requires id in s.outputs
  {
    var o := s.outputs[id];
    && 0 < id < s.ctl.nextId
    && !o.state.Preparing? && !o.state.Retired?
    && (o.state.Failed? ==> o.branch.fault.Some?)
    && (o.state.Draining? ==> !o.branch.state.Active?)
    && (!s.finishing ==> id in s.ctl.table)
    && (id in s.ctl.table ==> Agrees(s, o, s.ctl.table[id].state))
  }

  // The listed state is the output's own, or lags a failed publication, or leads by an expiry.
  ghost predicate Agrees(s: Sys, o: Output, listed: OutputState) {
    || listed == o.state
    || (listed.Preparing? && o.state.Waiting?)
    || (listed.Failed? && o.state.Draining?)
    || (listed.Failed? && o.state.Waiting? && !Before(s.clock, o.deadline))
  }

  ghost predicate AdditionListed(s: Sys, id: nat) {
    id in s.ctl.table && s.ctl.table[id].state.Preparing? && id !in s.outputs
  }

  ghost predicate TaskListed(s: Sys, task: Task) {
    && (!task.exchange.release ==>
          task.id in s.ctl.table && s.ctl.table[task.id].state == if task.expired then Failed else Preparing)
    && (task.id in s.outputs ==>
          s.outputs[task.id].deadline == Some(task.deadline) && !s.outputs[task.id].state.Running?)
  }

  ghost predicate Valid(s: Sys) {
    Slot(s) && Grouped(s) && Drawn(s) && Listed(s)
  }
}
