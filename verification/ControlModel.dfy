/**
 The run control as a value: a one-slot command mailbox, the table of output
 snapshots, identifier allocation and the stop/claim state. `history` records
 every write to the table, oldest first; the program keeps no such record.
 */
module ControlModel {
  import opened Wrappers
  import opened OutputTypes

  // Writes to the table, newest last.
  datatype History = Start | Then(past: History, entry: Snapshot)

  datatype StartState = Ready | Claimed | Stopped

  datatype Control = Control(
    nextId: nat,
    pending: Option<Change>,
    table: map<nat, Snapshot>,
    inProgress: bool,
    enabled: bool,
    start: StartState,
    history: History)

  datatype Admission = Admitted(id: nat) | NotRunning | Busy | Exhausted | Unknown

  const EMPTY: Control := Control(1, None, map[], false, false, Ready, Start)

  // A new entry, under the next identifier.
  function Enter(c: Control, entry: Snapshot): Control {
    c.(table := c.table[entry.id := entry], nextId := c.nextId + 1, history := Then(c.history, entry))
  }

  function AddOutput(c: Control): (Control, Admission) {
    if !c.enabled || c.start.Stopped? then (c, NotRunning)
    else if c.inProgress || c.pending.Some? then (c, Busy)
    else if c.nextId == MAX_ID then (c, Exhausted)
    else
      var entry := Snapshot(c.nextId, Preparing, Planning, None);
      (Enter(c, entry).(pending := Some(Change(c.nextId, true))), Admitted(c.nextId))
  }

  function RemoveOutput(c: Control, id: nat): (Control, Admission) {
    if !c.enabled || c.start.Stopped? then (c, NotRunning)
    else if c.inProgress || c.pending.Some? then (c, Busy)
    else if id !in c.table then (c, Unknown)
    else (c.(pending := Some(Change(id, false))), Admitted(id))
  }

  function TakeChange(c: Control): (Control, Option<Change>) {
    if c.inProgress || c.pending.None? then (c, None)
    else (c.(pending := None, inProgress := true), c.pending)
  }

  function CompleteChange(c: Control): Control {
    c.(inProgress := false)
  }

  // Unknown identifiers are ignored; a Retired snapshot erases its entry.
  function Publish(c: Control, s: Snapshot): Control {
    if s.id !in c.table then c
    else if s.state.Retired? then c.(table := c.table - {s.id}, history := Then(c.history, s))
    else c.(table := c.table[s.id := s], history := Then(c.history, s))
  }

  function RegisterInitial(c: Control): (Control, Option<nat>) {
    if c.table != map[] || c.nextId != 1 then (c, None)
    else
      var entry := Snapshot(1, Preparing, Preparation, None);
      (Enter(c, entry), Some(1))
  }

  function SetEnabled(c: Control, enabled: bool): Control {
    c.(enabled := enabled)
  }

  function RequestStop(c: Control): Control {
    c.(start := Stopped)
  }

  function TryClaim(c: Control): (Control, bool) {
    if c.start.Ready? then (c.(start := Claimed), true) else (c, false)
  }

  // ---- What every interleaving of mailbox operations keeps ----

  datatype Op =
    | Add
    | Remove(id: nat)
    | Take
    | Complete
    | Write(snapshot: Snapshot)
    | Register
    | Enable(on: bool)
    | Stop
    | Claim

  function Apply(c: Control, op: Op): Control {
    match op
    case Add => AddOutput(c).0
    case Remove(id) => RemoveOutput(c, id).0
    case Take => TakeChange(c).0
    case Complete => CompleteChange(c)
    case Write(s) => Publish(c, s)
    case Register => RegisterInitial(c).0
    case Enable(on) => SetEnabled(c, on)
    case Stop => RequestStop(c)
    case Claim => TryClaim(c).0
  }

  function Run(c: Control, ops: seq<Op>): Control
    decreases |ops|
  {
    if ops == [] then c else Run(Apply(c, ops[0]), ops[1..])
  }

  // The newest write for an identifier.
  function Last(h: History, id: nat): Option<Snapshot> {
    match h
    case Start => None
    case Then(past, e) => if e.id == id then Some(e) else Last(past, id)
  }

  predicate Occurs(h: History, s: Snapshot) {
    h.Then? && (h.entry == s || Occurs(h.past, s))
  }

  // a was written before b.
  predicate Before(h: History, a: Snapshot, b: Snapshot) {
    h.Then? && ((h.entry == b && Occurs(h.past, a)) || Before(h.past, a, b))
  }

  predicate Extends(h: History, later: History) {
    later == h || (later.Then? && Extends(h, later.past))
  }

  // Nothing is written for an identifier after its Retired entry.
  predicate Sealed(h: History) {
    match h
    case Start => true
    case Then(past, e) => Sealed(past) && (Last(past, e.id).Some? ==> !Last(past, e.id).value.state.Retired?)
  }

  // The table holds exactly the newest unretired write of each identifier ever handed out.
  ghost predicate Sound(c: Control) {
    && 0 < c.nextId
    && (c.pending.Some? ==> !c.inProgress && 0 < c.pending.value.id < c.nextId)
    && (forall id :: id in c.table ==>
          0 < id < c.nextId && c.table[id].id == id && !c.table[id].state.Retired?)
    && (forall id :: id in c.table ==> Last(c.history, id) == Some(c.table[id]))
    && (forall id: nat :: id !in c.table && Last(c.history, id).Some? ==>
          0 < id < c.nextId && Last(c.history, id).value.state.Retired?)
    && Sealed(c.history)
  }

  lemma ApplyKeepsSound(c: Control, op: Op)
    requires Sound(c)
    ensures Sound(Apply(c, op))
    ensures c.nextId <= Apply(c, op).nextId && Extends(c.history, Apply(c, op).history)
    ensures forall id :: 0 < id < c.nextId && id !in c.table ==> id !in Apply(c, op).table
    ensures c.start.Stopped? ==> Apply(c, op).start.Stopped?
  {
    match op
    case Write(s) => PublishKeepsSound(c, s);
    case Register => if c.table == map[] && c.nextId == 1 { EnterKeepsSound(c, Preparation); }
    case Add => EnterKeepsSound(c, Planning);
    case _ =>
  }

  lemma EnterKeepsSound(c: Control, stage: Stage)
    requires Sound(c)
    ensures var d := Enter(c, Snapshot(c.nextId, Preparing, stage, None));
            Sound(d) && d.history.past == c.history && d.history.Then?
  {
  }

  lemma PublishKeepsSound(c: Control, s: Snapshot)
    requires Sound(c)
    ensures Sound(Publish(c, s))
    ensures var h := Publish(c, s).history; h == c.history || (h.Then? && h.past == c.history)
  {
  }

  lemma ExtendsTransitive(a: History, b: History, c: History)
    requires Extends(a, b) && Extends(b, c)
    ensures Extends(a, c)
  {
  }

  /** Every interleaving of callers and controller: identifiers are positive, only grow and are
      never reused; an erased identifier never reappears; the history only grows; a stop is final. */
  lemma {:induction false} RunKeepsSound(c: Control, ops: seq<Op>)
    requires Sound(c)
    ensures Sound(Run(c, ops))
    ensures c.nextId <= Run(c, ops).nextId && Extends(c.history, Run(c, ops).history)
    ensures forall id :: 0 < id < c.nextId && id !in c.table ==> id !in Run(c, ops).table
    ensures c.start.Stopped? ==> Run(c, ops).start.Stopped?
    decreases |ops|
  {
    if ops != [] {
      ApplyKeepsSound(c, ops[0]);
      RunKeepsSound(Apply(c, ops[0]), ops[1..]);
      ExtendsTransitive(c.history, Apply(c, ops[0]).history, Run(c, ops).history);
    }
  }

  /** Two admissions on one run hand out different identifiers, the later one larger. */
  lemma AdmittedIdsIncrease(c: Control, between: seq<Op>)
    requires Sound(c) && AddOutput(c).1.Admitted?
    requires AddOutput(Run(AddOutput(c).0, between)).1.Admitted?
    ensures 0 < AddOutput(c).1.id < AddOutput(Run(AddOutput(c).0, between)).1.id
  {
    ApplyKeepsSound(c, Add);
    RunKeepsSound(Apply(c, Add), between);
  }

  /** The slot holds one command: until it is taken no other command is admitted, whatever else
      happens, and taking it yields exactly the admitted command. */
  lemma {:induction false} SlotHoldsOneCommand(c: Control, ops: seq<Op>)
    requires c.pending.Some? && !c.inProgress
    requires forall i :: 0 <= i < |ops| ==> !ops[i].Take?
    ensures !AddOutput(Run(c, ops)).1.Admitted?
    ensures forall id :: !RemoveOutput(Run(c, ops), id).1.Admitted?
    ensures TakeChange(Run(c, ops)).1 == c.pending
    decreases |ops|
  {
    if ops != [] {
      SlotHoldsOneCommand(Apply(c, ops[0]), ops[1..]);
    }
  }

  /** Runtime start is claimed at most once, and never after a stop. */
  lemma {:induction false} ClaimIsExclusive(c: Control, ops: seq<Op>)
    requires !c.start.Ready?
    ensures !TryClaim(Run(c, ops)).1
    decreases |ops|
  {
    if ops != [] { ClaimIsExclusive(Apply(c, ops[0]), ops[1..]); }
  }

  // ---- What the mailbox admits ----

  // Callers may change outputs.
  predicate Open(c: Control) {
    c.enabled && !c.start.Stopped?
  }

  // No command waits or is under way.
  predicate Vacant(c: Control) {
    c.pending.None? && !c.inProgress
  }

  /** An addition is admitted exactly if the session takes changes, the slot is vacant and an identifier is
      left; it is then listed Preparing under the next identifier, and is what will be taken. A refusal says
      why, and changes nothing. */
  lemma AdditionIsAdmitted(c: Control)
    ensures var (d, r) := AddOutput(c);
            if Open(c) && Vacant(c) && c.nextId != MAX_ID then
              && r == Admitted(c.nextId) && d.nextId == c.nextId + 1 && Open(d)
              && d.table == c.table[c.nextId := Snapshot(c.nextId, Preparing, Planning, None)]
              && TakeChange(d).1 == Some(Change(c.nextId, true))
            else d == c && r == if !Open(c) then NotRunning else if !Vacant(c) then Busy else Exhausted
  {
  }

  /** A removal is admitted exactly if the session takes changes, the slot is vacant and the output is listed. */
  lemma RemovalIsAdmitted(c: Control, id: nat)
    ensures var (d, r) := RemoveOutput(c, id);
            if Open(c) && Vacant(c) && id in c.table then
              r == Admitted(id) && d.table == c.table && Open(d) && TakeChange(d).1 == Some(Change(id, false))
            else d == c && r == if !Open(c) then NotRunning else if !Vacant(c) then Busy else Unknown
  {
  }

  // n additions, each taken and completed.
  function Cycles(n: nat): seq<Op> {
    if n == 0 then [] else Cycles(n - 1) + [Add, Take, Complete]
  }

  lemma {:induction false} RunConcat(c: Control, first: seq<Op>, rest: seq<Op>)
    ensures Run(c, first + rest) == Run(Run(c, first), rest)
    decreases |first|
  {
    if first == [] {
      assert first + rest == rest;
    } else {
      assert (first + rest)[1..] == first[1..] + rest;
      RunConcat(Apply(c, first[0]), first[1..], rest);
    }
  }

  lemma CycleRun(c: Control)
    ensures Run(c, [Add, Take, Complete]) == CompleteChange(TakeChange(AddOutput(c).0).0)
  {
    assert [Add, Take, Complete][1..] == [Take, Complete] && [Take, Complete][1..] == [Complete];
    assert [Complete][1..] == [];
    assert Run(c, [Add, Take, Complete]) == Run(Apply(c, Add), [Take, Complete]);
    assert Run(Apply(c, Add), [Take, Complete]) == Run(Apply(Apply(c, Add), Take), [Complete]);
  }

  /** The slot is reusable without limit: each time its command has been taken and completed the next addition is
      admitted, under the next identifier, until the identifiers run out. */
  lemma {:induction false} SlotIsReusable(c: Control, n: nat)
    requires Open(c) && Vacant(c) && c.nextId + n <= MAX_ID
    ensures var d := Run(c, Cycles(n));
            && Open(d) && Vacant(d) && d.nextId == c.nextId + n
            && (d.nextId != MAX_ID ==> AddOutput(d).1 == Admitted(c.nextId + n))
  {
    if n > 0 {
      SlotIsReusable(c, n - 1);
      RunConcat(c, Cycles(n - 1), [Add, Take, Complete]);
      CycleRun(Run(c, Cycles(n - 1)));
    }
  }

  /** Runtime start is there for the first who claims it before a stop. */
  lemma {:induction false} FirstClaimSucceeds(c: Control, ops: seq<Op>)
    requires c.start.Ready? && forall i :: 0 <= i < |ops| ==> !ops[i].Claim? && !ops[i].Stop?
    ensures TryClaim(Run(c, ops)).1
    decreases |ops|
  {
    if ops != [] { FirstClaimSucceeds(Apply(c, ops[0]), ops[1..]); }
  }

  // ---- The order of an output's published states ----

  /** State b may be written after state a for one output. The pair Failed, Draining is the one
      backward move the program can make; Forward below says when it makes none. */
  predicate Later(a: OutputState, b: OutputState) {
    && !a.Retired?
    && ((a.Failed? && b.Draining?) || (Rank(a) <= Rank(b) && !(a.Running? && b.Running?)))
  }

  // Each write follows the previous one for its output.
  predicate Ordered(h: History) {
    match h
    case Start => true
    case Then(past, e) => Ordered(past) && (Last(past, e.id).Some? ==> Later(Last(past, e.id).value.state, e.state))
  }

  // No write moves its output backward.
  predicate Forward(h: History) {
    match h
    case Start => true
    case Then(past, e) =>
      Forward(past) && (Last(past, e.id).Some? ==> Rank(Last(past, e.id).value.state) <= Rank(e.state))
  }

  // Writing s moves its output backward.
  predicate Regresses(c: Control, s: Snapshot) {
    s.id in c.table && Rank(s.state) < Rank(c.table[s.id].state)
  }

  // Writing s is in order for its output (or is ignored).
  predicate InOrder(c: Control, s: Snapshot) {
    s.id in c.table ==> Later(c.table[s.id].state, s.state)
  }

  lemma PublishKeepsOrder(c: Control, s: Snapshot)
    requires Sound(c) && Ordered(c.history) && InOrder(c, s)
    ensures Sound(Publish(c, s)) && Ordered(Publish(c, s).history)
  {
    ApplyKeepsSound(c, Write(s));
  }

  /** A write keeps the history forward exactly when it does not move its output backward. */
  lemma PublishForward(c: Control, s: Snapshot)
    requires Sound(c)
    ensures Forward(Publish(c, s).history) <==> Forward(c.history) && !Regresses(c, s)
  {
  }

  lemma {:induction false} PastPrecedesLast(h: History, a: Snapshot)
    requires Ordered(h) && Occurs(h, a)
    ensures Last(h, a.id).Some?
    ensures Last(h, a.id).value == a || Later(a.state, Last(h, a.id).value.state)
  {
    if h.entry != a { PastPrecedesLast(h.past, a); }
  }

  /** In an ordered history any two writes for one output are in order: nothing follows a Retired
      entry, nothing but Draining, Failed or Retired follows Failed, and Running occurs once. */
  lemma {:induction false} OrderedPairs(h: History, a: Snapshot, b: Snapshot)
    requires Ordered(h) && Before(h, a, b) && a.id == b.id
    ensures Later(a.state, b.state)
  {
    if Before(h.past, a, b) {
      OrderedPairs(h.past, a, b);
    } else {
      PastPrecedesLast(h.past, a);
    }
  }

  lemma {:induction false} LastOccurs(h: History, id: nat)
    requires Last(h, id).Some?
    ensures Occurs(h, Last(h, id).value) && Last(h, id).value.id == id
  {
    if h.entry.id != id { LastOccurs(h.past, id); }
  }

  lemma {:induction false} ForwardLast(h: History, a: Snapshot)
    requires Forward(h) && Occurs(h, a)
    ensures Last(h, a.id).Some? && Rank(a.state) <= Rank(Last(h, a.id).value.state)
  {
    if h.entry != a { ForwardLast(h.past, a); }
  }

  // Every pair of writes for one output is in rank order.
  ghost predicate ForwardPairs(h: History) {
    forall a, b :: Before(h, a, b) && a.id == b.id ==> Rank(a.state) <= Rank(b.state)
  }

  /** Forward, defined write by write, is the statement about all pairs of writes. */
  lemma {:induction false} ForwardMeansPairs(h: History)
    ensures Forward(h) <==> ForwardPairs(h)
  {
    if h.Then? {
      ForwardMeansPairs(h.past);
      if Forward(h) {
        forall a, b | Before(h, a, b) && a.id == b.id
          ensures Rank(a.state) <= Rank(b.state)
        {
          if !Before(h.past, a, b) { ForwardLast(h.past, a); }
        }
      }
      if ForwardPairs(h) {
        assert forall a, b :: Before(h.past, a, b) ==> Before(h, a, b);
        if Last(h.past, h.entry.id).Some? {
          LastOccurs(h.past, h.entry.id);
          assert Before(h, Last(h.past, h.entry.id).value, h.entry);
        }
      }
    }
  }
}
