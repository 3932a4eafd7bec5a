/**
 Who owns the temporary description of an output. Calling threads admit an output and insert its
 description under one lock; the event thread erases it, under the same lock, when it has handled the
 output's retirement, which the controller may reach at any time after the admission.
 */
module DescriptionOwnership {
  import opened Wrappers

  // A thread in addOutput: outside, holding the lock, or holding it with an output admitted.
  datatype Caller = Outside | Holding | Admitted(id: nat)

  // The event thread: free, about to insert the initial description, told of a retirement, or erasing.
  datatype EventThread = Free | Registered(id: nat) | Inserting(id: nat) | Notified(id: nat) | Erasing(id: nat)

  datatype Holder = Thread(caller: nat) | Events

  // `listed` are the outputs in the snapshot table; `handled` those whose retirement has been handled;
  // `inserted` those that were ever given a description.
  datatype Table = Table(
    nextId: nat, listed: set<nat>, descriptions: set<nat>, inserted: set<nat>, handled: set<nat>,
    lock: Option<Holder>, callers: map<nat, Caller>, event: EventThread)

  const EMPTY: Table := Table(1, {}, {}, {}, {}, None, map[], Free)

  datatype Step =
    // a calling thread
    | Lock(caller: nat)
    | Admit(caller: nat, accepted: bool)
    | Insert(caller: nat, owned: bool)
    // the event thread
    | Register
    | LockToInsert
    | InsertInitial(owned: bool)
    | Retire(id: nat)
    | RetireAgain(id: nat)
    | LockToErase
    | Erase

  function CallerAt(s: Table, t: nat): Caller {
    if t in s.callers then s.callers[t] else Outside
  }

  // Only an output with a description file of its own gets an entry.
  function Describe(s: Table, id: nat, owned: bool): Table {
    if owned then s.(descriptions := s.descriptions + {id}, inserted := s.inserted + {id}) else s
  }

  // A retirement is reported once the output has left the table; `RetireAgain` is a second report, of a
  // removal taken after its output had retired, or of an output whose removal finish() rejected.
  function Apply(s: Table, step: Step): Table {
    match step
    case Lock(t) =>
      if s.lock.Some? || !CallerAt(s, t).Outside? then s
      else s.(lock := Some(Thread(t)), callers := s.callers[t := Holding])
    case Admit(t, accepted) =>
      if !CallerAt(s, t).Holding? then s
      else if accepted then
        s.(nextId := s.nextId + 1, listed := s.listed + {s.nextId}, callers := s.callers[t := Admitted(s.nextId)])
      else s.(lock := None, callers := s.callers[t := Outside])
    case Insert(t, owned) =>
      if !CallerAt(s, t).Admitted? then s
      else Describe(s, CallerAt(s, t).id, owned).(lock := None, callers := s.callers[t := Outside])
    case Register =>
      if s.event.Free? && s.nextId == 1 then s.(nextId := 2, listed := s.listed + {1}, event := Registered(1)) else s
    case LockToInsert =>
      if s.event.Registered? && s.lock.None? then s.(lock := Some(Events), event := Inserting(s.event.id)) else s
    case InsertInitial(owned) =>
      if s.event.Inserting? then Describe(s, s.event.id, owned).(lock := None, event := Free) else s
    case Retire(id) =>
      if s.event.Free? && id in s.listed then s.(listed := s.listed - {id}, event := Notified(id)) else s
    case RetireAgain(id) =>
      if s.event.Free? && 0 < id < s.nextId && id !in s.listed then s.(event := Notified(id)) else s
    case LockToErase =>
      if s.event.Notified? && s.lock.None? then s.(lock := Some(Events), event := Erasing(s.event.id)) else s
    case Erase =>
      if s.event.Erasing? then
        s.(descriptions := s.descriptions - {s.event.id}, handled := s.handled + {s.event.id},
           lock := None, event := Free)
      else s
  }

  function Run(s: Table, steps: seq<Step>): Table
    decreases |steps|
  {
    if steps == [] then s else Run(Apply(s, steps[0]), steps[1..])
  }

  // Whose identifier the event thread is dealing with.
  predicate Dealing(event: EventThread, id: nat) {
    !event.Free? && event.id == id
  }

  ghost predicate Locked(s: Table) {
    && (forall t :: !CallerAt(s, t).Outside? <==> s.lock == Some(Thread(t)))
    && (s.lock == Some(Events) <==> s.event.Inserting? || s.event.Erasing?)
  }

  // Every admitted output is listed, being retired, or handled; the descriptions are exactly those
  // inserted for outputs whose retirement has not been handled.
  ghost predicate Owned(s: Table) {
    && 0 < s.nextId
    && (forall id :: id in s.listed || id in s.inserted || id in s.handled ==> 0 < id < s.nextId)
    && (forall id :: 0 < id < s.nextId ==> id in s.listed || id in s.handled || Retiring(s.event, id))
    && s.handled !! s.listed && s.descriptions == s.inserted - s.handled
    && (s.event.Registered? || s.event.Inserting? ==> s.event.id in s.listed && s.event.id !in s.inserted)
    && (s.event.Notified? || s.event.Erasing? ==> 0 < s.event.id < s.nextId && s.event.id !in s.listed)
    && (forall t :: CallerAt(s, t).Admitted? ==> Pending(s, CallerAt(s, t).id))
  }

  predicate Retiring(event: EventThread, id: nat) {
    (event.Notified? || event.Erasing?) && event.id == id
  }

  // An admitted output whose description has still to be inserted.
  predicate Pending(s: Table, id: nat) {
    && 0 < id < s.nextId && id !in s.handled && id !in s.inserted
    && (if id in s.listed then !Dealing(s.event, id) else s.event == Notified(id))
  }

  ghost predicate Valid(s: Table) {
    Locked(s) && Owned(s)
  }

  lemma StepKeepsLocked(s: Table, step: Step)
    requires Valid(s)
    ensures Locked(Apply(s, step))
  {
  }

  lemma StepKeepsOwned(s: Table, step: Step)
    requires Valid(s)
    ensures Owned(Apply(s, step))
    ensures s.inserted <= Apply(s, step).inserted && s.handled <= Apply(s, step).handled
  {
    var u := Apply(s, step);
    forall t | CallerAt(u, t).Admitted?
      ensures Pending(u, CallerAt(u, t).id)
    {
      assert CallerAt(s, t).Admitted? ==> s.lock == Some(Thread(t)) && Pending(s, CallerAt(s, t).id);
      if step.Insert? || step.Admit? || step.Lock? {
        assert !CallerAt(s, step.caller).Outside? ==> s.lock == Some(Thread(step.caller));
      }
    }
  }

  /** In every interleaving of callers with the event thread, repeated reports of one retirement
      included, the descriptions are exactly those inserted for outputs whose retirement has not been
      handled: an inserted description stays until then, the insertion comes before the erasure, and none
      remains, then or ever after, for an output whose retirement has been handled. */
  lemma {:induction false} NoDescriptionOutlivesItsOutput(s: Table, steps: seq<Step>)
    requires Valid(s)
    ensures var t := Run(s, steps);
            && Valid(t) && t.descriptions == t.inserted - t.handled
            && s.inserted <= t.inserted && s.handled <= t.handled
            && (t.event.Free? ==> t.descriptions <= t.listed)
    decreases |steps|
  {
    if steps != [] {
      StepKeepsLocked(s, steps[0]);
      StepKeepsOwned(s, steps[0]);
      NoDescriptionOutlivesItsOutput(Apply(s, steps[0]), steps[1..]);
    }
  }

  /** So it is from the start of every session. */
  lemma DescriptionsFromTheStart(steps: seq<Step>)
    ensures var t := Run(EMPTY, steps);
            t.descriptions == t.inserted - t.handled && (t.event.Free? ==> t.descriptions <= t.listed)
  {
    NoDescriptionOutlivesItsOutput(EMPTY, steps);
  }

  /** A caller that gets the lock admits its output and inserts its description, and leaves the lock free. */
  lemma AdditionIsDescribed(s: Table, t: nat)
    requires Valid(s) && s.lock.None?
    ensures var u := Apply(Apply(Apply(s, Lock(t)), Admit(t, true)), Insert(t, true));
            && u.listed == s.listed + {s.nextId} && u.descriptions == s.descriptions + {s.nextId} && u.lock.None?
            && u.nextId == s.nextId + 1 && s.nextId !in s.descriptions
  {
    var a := Apply(s, Lock(t));
    assert CallerAt(s, t).Outside? && a == s.(lock := Some(Thread(t)), callers := s.callers[t := Holding]);
    assert CallerAt(a, t) == Holding;
    var b := Apply(a, Admit(t, true));
    assert CallerAt(b, t) == Admitted(s.nextId);
  }

  /** The event thread, told of a retirement, erases that description and no other, and leaves the lock free. */
  lemma RetirementErases(s: Table, id: nat)
    requires Valid(s) && s.lock.None? && s.event.Free? && id in s.listed
    ensures var u := Apply(Apply(Apply(s, Retire(id)), LockToErase), Erase);
            && u.listed == s.listed - {id} && u.descriptions == s.descriptions - {id} && id in u.handled
            && u.lock.None? && u.event.Free?
  {
  }
}
