/**
 The run control object: the snapshot table is a vector searched from the front. Every method is
 one critical section and refines the operation of ControlModel of the same name.
 */
module RunControlObject {
  import opened Wrappers
  import opened OutputTypes
  import C = ControlModel

  // Identifiers are positive, increase along the vector and are below the next one.
  ghost predicate Increasing(v: seq<Snapshot>, next: nat) {
    && (forall i :: 0 <= i < |v| ==> 0 < v[i].id < next)
    && (forall i, j :: 0 <= i < j < |v| ==> v[i].id < v[j].id)
  }

  // The vector and the table list the same snapshots.
  ghost predicate Lists(v: seq<Snapshot>, table: map<nat, Snapshot>) {
    && (forall s :: s in v ==> s.id in table && table[s.id] == s)
    && (forall id :: id in table ==> table[id] in v && table[id].id == id)
  }

  ghost predicate Holds(v: seq<Snapshot>, next: nat, table: map<nat, Snapshot>) {
    Increasing(v, next) && Lists(v, table)
  }

  lemma ListsSomething(v: seq<Snapshot>, table: map<nat, Snapshot>)
    requires Lists(v, table)
    ensures v != [] <==> table != map[]
  {
    if v != [] { assert v[0] in v; }
    if id :| id in table { assert table[id] in v; }
  }

  function Erased(v: seq<Snapshot>, i: nat): seq<Snapshot>
    requires i < |v|
  {
    v[..i] + v[i + 1..]
  }

  lemma Appends(v: seq<Snapshot>, next: nat, table: map<nat, Snapshot>, s: Snapshot)
    requires Holds(v, next, table) && s.id == next && 0 < next
    ensures Holds(v + [s], next + 1, table[s.id := s])
  {
    assert forall t :: t in v ==> t.id < next;
  }

  lemma Replaces(v: seq<Snapshot>, next: nat, table: map<nat, Snapshot>, i: nat, s: Snapshot)
    requires Holds(v, next, table) && i < |v| && s.id == v[i].id
    ensures Holds(v[i := s], next, table[s.id := s])
  {
    var w, larger := v[i := s], table[s.id := s];
    assert w[i] == s;
    forall t | t in w ensures t.id in larger && larger[t.id] == t {
      var j :| 0 <= j < |w| && w[j] == t;
      if j != i { assert v[j] == t; }
    }
    forall id | id in larger ensures larger[id] in w {
      if id != s.id {
        var j :| 0 <= j < |v| && v[j] == table[id];
        assert w[j] == table[id];
      }
    }
  }

  lemma ErasedIncreases(v: seq<Snapshot>, next: nat, i: nat)
    requires Increasing(v, next) && i < |v|
    ensures Increasing(Erased(v, i), next)
  {
    var w := Erased(v, i);
    assert forall j :: 0 <= j < |w| ==> w[j] == v[if j < i then j else j + 1];
  }

  // What is left is what differs from the erased entry.
  lemma ErasedMembers(v: seq<Snapshot>, next: nat, i: nat, s: Snapshot)
    requires Increasing(v, next) && i < |v|
    ensures s in Erased(v, i) <==> s in v && s.id != v[i].id
  {
    var w := Erased(v, i);
    if s in w {
      var j :| 0 <= j < |w| && w[j] == s;
      assert s == v[if j < i then j else j + 1];
    }
    if s in v && s.id != v[i].id {
      var j :| 0 <= j < |v| && v[j] == s;
      assert w[if j < i then j else j - 1] == s;
    }
  }

  lemma Erases(v: seq<Snapshot>, next: nat, table: map<nat, Snapshot>, i: nat)
    requires Holds(v, next, table) && i < |v|
    ensures Holds(Erased(v, i), next, table - {v[i].id})
  {
    ErasedIncreases(v, next, i);
    var w, rest := Erased(v, i), table - {v[i].id};
    forall t | t in w ensures t.id in rest && rest[t.id] == t {
      ErasedMembers(v, next, i, t);
    }
    forall id | id in rest ensures rest[id] in w && rest[id].id == id {
      ErasedMembers(v, next, i, rest[id]);
    }
  }

  class RunControl {
    var nextOutputId: nat
    var pendingOutputChange: Option<Change>
    var outputSnapshots: seq<Snapshot>
    var outputChangeInProgress: bool
    var outputChangesEnabled: bool
    var state: C.StartState
    ghost var table: map<nat, Snapshot>
    ghost var history: C.History

    ghost predicate Valid()
      reads this
    {
      0 < nextOutputId && Holds(outputSnapshots, nextOutputId, table)
    }

    ghost function Model(): C.Control
      reads this
    {
      C.Control(nextOutputId, pendingOutputChange, table, outputChangeInProgress,
                outputChangesEnabled, state, history)
    }

    constructor ()
      ensures Valid() && Model() == C.EMPTY
    {
      nextOutputId, pendingOutputChange, outputSnapshots, table := 1, None, [], map[];
      outputChangeInProgress, outputChangesEnabled, state, history := false, false, C.Ready, C.Start;
    }

    // The position of an identifier in the table, or its length.
    method Find(id: nat) returns (i: nat)
      requires Valid()
      ensures i <= |outputSnapshots|
      ensures i < |outputSnapshots| <==> id in Model().table
      ensures i < |outputSnapshots| ==> outputSnapshots[i].id == id
    {
      i := 0;
      while i < |outputSnapshots| && outputSnapshots[i].id != id
        invariant i <= |outputSnapshots|
        invariant forall j :: 0 <= j < i ==> outputSnapshots[j].id != id
      {
        i := i + 1;
      }
      if id in table { assert table[id] in outputSnapshots; }
    }

    // A new entry at the end of the table, under the next identifier.
    method Append(stage: Stage) returns (id: nat)
      requires Valid()
      modifies this
      ensures Valid() && id == old(nextOutputId)
      ensures Model() == C.Enter(old(Model()), Snapshot(id, Preparing, stage, None))
    {
      id := nextOutputId;
      var entry := Snapshot(id, Preparing, stage, None);
      Appends(outputSnapshots, id, table, entry);
      outputSnapshots, nextOutputId := outputSnapshots + [entry], id + 1;
      table, history := table[id := entry], C.Then(history, entry);
    }

    method AddOutput() returns (r: C.Admission)
      requires Valid()
      modifies this
      ensures Valid() && Model() == C.AddOutput(old(Model())).0 && r == C.AddOutput(old(Model())).1
    {
      if !outputChangesEnabled || state.Stopped? { return C.NotRunning; }
      if outputChangeInProgress || pendingOutputChange.Some? { return C.Busy; }
      if nextOutputId == MAX_ID { return C.Exhausted; }
      var id := Append(Planning);
      pendingOutputChange := Some(Change(id, true));
      return C.Admitted(id);
    }

    method RemoveOutput(id: nat) returns (r: C.Admission)
      requires Valid()
      modifies this
      ensures Valid() && (Model(), r) == C.RemoveOutput(old(Model()), id)
    {
      if !outputChangesEnabled || state.Stopped? { return C.NotRunning; }
      if outputChangeInProgress || pendingOutputChange.Some? { return C.Busy; }
      var i := Find(id);
      if i == |outputSnapshots| { return C.Unknown; }
      pendingOutputChange := Some(Change(id, false));
      return C.Admitted(id);
    }

    // A caller sees each live output once, in admission order.
    method OutputSnapshots() returns (v: seq<Snapshot>)
      requires Valid()
      ensures Increasing(v, nextOutputId)
      ensures forall s :: s in v <==> s.id in Model().table && Model().table[s.id] == s
    {
      v := outputSnapshots;
    }

    method TakeOutputChange() returns (change: Option<Change>)
      requires Valid()
      modifies this
      ensures Valid() && (Model(), change) == C.TakeChange(old(Model()))
    {
      if outputChangeInProgress || pendingOutputChange.None? { return None; }
      change := pendingOutputChange;
      pendingOutputChange := None;
      outputChangeInProgress := true;
    }

    method CompleteOutputChange()
      requires Valid()
      modifies this
      ensures Valid() && Model() == C.CompleteChange(old(Model()))
    {
      outputChangeInProgress := false;
    }

    method PublishOutputSnapshot(s: Snapshot)
      requires Valid()
      modifies this
      ensures Valid() && Model() == C.Publish(old(Model()), s)
    {
      var i := Find(s.id);
      if i == |outputSnapshots| { return; }
      if s.state.Retired? {
        Erases(outputSnapshots, nextOutputId, table, i);
        outputSnapshots, table := Erased(outputSnapshots, i), table - {s.id};
      } else {
        Replaces(outputSnapshots, nextOutputId, table, i, s);
        outputSnapshots, table := outputSnapshots[i := s], table[s.id := s];
      }
      history := C.Then(history, s);
    }

    method RegisterInitialOutput() returns (id: Option<nat>)
      requires Valid()
      modifies this
      ensures Valid() && (Model(), id) == C.RegisterInitial(old(Model()))
    {
      if outputSnapshots != [] || nextOutputId != 1 {
        ListsSomething(outputSnapshots, table);
        return None;
      }
      var initial := Append(Preparation);
      return Some(initial);
    }

    method SetOutputChangesEnabled(enabled: bool)
      requires Valid()
      modifies this
      ensures Valid() && Model() == C.SetEnabled(old(Model()), enabled)
    {
      outputChangesEnabled := enabled;
    }

    method RequestStop()
      requires Valid()
      modifies this
      ensures Valid() && Model() == C.RequestStop(old(Model()))
    {
      state := C.Stopped;
    }

    method TryClaimRuntimeStart() returns (claimed: bool)
      requires Valid()
      modifies this
      ensures Valid() && (Model(), claimed) == C.TryClaim(old(Model()))
    {
      claimed := state.Ready?;
      if claimed { state := C.Claimed; }
    }
  }
}
