/**
 The egress account: one thread reserves bandwidth in two atomic operations, a load and an add,
 while leases are released by any thread at any time. `reserved` is a 64-bit counter.
 */
module EgressAccount {
  import opened Wrappers
  import opened Sums

  const WORD: nat := 0x1_0000_0000_0000_0000

  // `leases` are the live reservations; `checked` is a reservation that has passed its check and not
  // yet been added.
  datatype Account = Account(capacity: nat, reserved: int, leases: map<nat, nat>, checked: Option<nat>)

  datatype Step =
    | Check(bytes: nat)
    | Abandon
    | Add(lease: nat)
    | Release(lease: nat)

  // The check on the loaded value; the subtraction is unsigned and guarded.
  predicate Fits(a: Account, bytes: nat) {
    bytes != 0 && a.reserved <= a.capacity && bytes <= a.capacity - a.reserved
  }

  function Apply(a: Account, step: Step): Account {
    match step
    case Check(bytes) => if a.checked.None? && Fits(a, bytes) then a.(checked := Some(bytes)) else a
    case Abandon => a.(checked := None)
    case Add(lease) =>
      if a.checked.None? || lease in a.leases then a
      else a.(reserved := (a.reserved + a.checked.value) % WORD,
              leases := a.leases[lease := a.checked.value], checked := None)
    case Release(lease) =>
      if lease !in a.leases then a
      else a.(reserved := (a.reserved - a.leases[lease]) % WORD, leases := a.leases - {lease})
  }

  function Run(a: Account, steps: seq<Step>): Account
    decreases |steps|
  {
    if steps == [] then a else Run(Apply(a, steps[0]), steps[1..])
  }

  /** The counter is exactly the sum of the live leases and within the capacity, and a checked
      reservation still fits: releases since the load can only have made room. */
  ghost predicate Valid(a: Account) {
    && a.capacity < WORD
    && a.reserved == Sum(a.leases)
    && a.reserved + (if a.checked.Some? then a.checked.value else 0) <= a.capacity
  }

  lemma StepKeepsValid(a: Account, step: Step)
    requires Valid(a)
    ensures Valid(Apply(a, step)) && Apply(a, step).capacity == a.capacity
    ensures step.Release? && step.lease in a.leases ==>
              a.leases[step.lease] <= a.reserved && Apply(a, step).reserved == a.reserved - a.leases[step.lease]
    ensures step.Add? && a.checked.Some? && step.lease !in a.leases ==>
              Apply(a, step).reserved == a.reserved + a.checked.value
  {
    match step
    case Add(lease) =>
      if a.checked.Some? && lease !in a.leases { SumAdds(a.leases, lease, a.checked.value); }
    case Release(lease) =>
      if lease in a.leases { SumSplits(a.leases, lease); }
    case _ =>
  }

  /** Conservation in every interleaving: the counter is the sum of the live leases, never exceeds
      the capacity and never wraps. */
  lemma {:induction false} RunKeepsValid(a: Account, steps: seq<Step>)
    requires Valid(a)
    ensures Valid(Run(a, steps)) && Run(a, steps).reserved <= a.capacity == Run(a, steps).capacity
    decreases |steps|
  {
    if steps != [] {
      StepKeepsValid(a, steps[0]);
      RunKeepsValid(Apply(a, steps[0]), steps[1..]);
    }
  }

  // ---- A candidate that is rejected after it has reserved ----

  // Releases of other leases.
  predicate OthersRelease(steps: seq<Step>, lease: nat) {
    forall i :: 0 <= i < |steps| ==> steps[i].Release? && steps[i].lease != lease
  }

  // The account with the candidate's lease or its checked request in it, against the account without.
  ghost predicate Ahead(a: Account, b: Account, lease: nat, bytes: nat) {
    && a.capacity == b.capacity && b.checked.None? && lease !in b.leases
    && ((a.checked == Some(bytes) && a.leases == b.leases && a.reserved == b.reserved)
        || (a.checked.None? && a.leases == b.leases[lease := bytes] && a.reserved == b.reserved + bytes))
  }

  lemma {:induction false} OthersRunAlike(a: Account, b: Account, lease: nat, bytes: nat, steps: seq<Step>)
    requires Valid(a) && Valid(b) && Ahead(a, b, lease, bytes) && OthersRelease(steps, lease)
    ensures Valid(Run(a, steps)) && Valid(Run(b, steps)) && Ahead(Run(a, steps), Run(b, steps), lease, bytes)
    ensures Run(a, steps).checked == a.checked
    decreases |steps|
  {
    if steps != [] {
      StepKeepsValid(a, steps[0]);
      StepKeepsValid(b, steps[0]);
      var other := steps[0].lease;
      if other in b.leases {
        assert b.leases[lease := bytes] - {other} == (b.leases - {other})[lease := bytes];
      }
      OthersRunAlike(Apply(a, steps[0]), Apply(b, steps[0]), lease, bytes, steps[1..]);
    }
  }

  // What a rejected candidate goes through.
  function Candidacy(a: Account, bytes: nat, lease: nat, early: seq<Step>, late: seq<Step>): Account {
    Apply(Run(Apply(Run(Apply(a, Check(bytes)), early), Add(lease)), late), Release(lease))
  }

  /** A rejected candidate gives back all it reserved: the account is as if only the other releases
      had happened, whenever they fell between the load, the add and the release. */
  lemma RejectedGivesBackAll(a: Account, bytes: nat, lease: nat, early: seq<Step>, late: seq<Step>)
    requires Valid(a) && a.checked.None? && lease !in a.leases && Fits(a, bytes)
    requires OthersRelease(early, lease) && OthersRelease(late, lease)
    ensures Candidacy(a, bytes, lease, early, late) == Run(Run(a, early), late)
  {
    var b := Apply(a, Check(bytes));
    StepKeepsValid(a, Check(bytes));
    OthersRunAlike(b, a, lease, bytes, early);
    var c, plain := Run(b, early), Run(a, early);
    StepKeepsValid(c, Add(lease));
    OthersRunAlike(Apply(c, Add(lease)), plain, lease, bytes, late);
    var d, end := Run(Apply(c, Add(lease)), late), Run(plain, late);
    StepKeepsValid(d, Release(lease));
    assert end.leases[lease := bytes] - {lease} == end.leases;
  }
}
