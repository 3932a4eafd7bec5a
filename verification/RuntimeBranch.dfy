/**
 A runtime branch as its controller sees it. Workers, reclamation and clocks are readings: a
 reading says when a stopping branch's workers have exited (after `patience` polls), whether they
 exited unasked, and what a silence bound or a queue reported. `waits` counts the polls a branch
 has spent stopping; `metrics` stands for any one of its cumulative counters.
 */
module RuntimeBranch {
  import opened Wrappers
  import opened OutputTypes

  // The source calls Active, Closing, Broken and Gone Running, Draining, Failed and Retired.
  datatype BranchState = Prepared | Active | Closing | Broken | Retiring | Gone

  datatype Branch = Branch(state: BranchState, fault: Option<Fault>, waits: nat, metrics: nat)

  datatype PollReading = PollReading(early: bool, patience: nat, silence: Option<Fault>)

  // First failure wins: what a worker does when it fails.
  function Record(b: Branch, f: Fault): Branch {
    if b.fault.Some? then b else b.(fault := Some(f))
  }

  // The controller failing a branch: no effect once the branch is being reclaimed.
  function Fail(b: Branch, f: Fault): Branch {
    if b.state.Gone? || b.state.Retiring? then b else Record(b, f).(state := Broken)
  }

  // The branch and whether the drain was accepted. Only the state is examined, not `fault`.
  function BeginDrain(b: Branch, closing: Option<Fault>): (Branch, bool) {
    if !b.state.Active? then (b, false)
    else if closing.Some? then (Record(b, closing.value).(state := Broken), false)
    else (b.(state := Closing), true)
  }

  // The branch has been told to stop, or has stopped itself.
  predicate Stopping(b: Branch) {
    b.fault.Some? || b.state.Closing? || b.state.Broken? || b.state.Retiring? || b.state.Gone?
  }

  predicate Exited(b: Branch, r: PollReading) {
    r.early || (Stopping(b) && r.patience <= b.waits)
  }

  // The branch after one poll, and whether it has physically retired.
  function Poll(b: Branch, r: PollReading): (Branch, bool) {
    var waited := b.(waits := b.waits + 1);
    if b.state.Gone? then (b, true)
    else if b.state.Retiring? then
      if Exited(b, r) then (b.(state := Gone), true)
      else (if r.silence.Some? then Record(waited, r.silence.value) else waited, false)
    else
      var c := if b.fault.Some? then b.(state := Broken) else b;
      if c.state.Closing? && !Exited(b, r) && r.silence.Some? then
        (Fail(c, r.silence.value).(waits := b.waits + 1), false)
      else if c.state.Prepared? then (c, false)
      else if !Exited(b, r) then (if Stopping(b) then c.(waits := b.waits + 1) else c, false)
      else (c.(state := Retiring, waits := b.waits + 1), false)
  }

  // What a branch has still to go through: running, stopping, being reclaimed, gone.
  function Phase(b: Branch): nat {
    if b.state.Gone? then 0 else if b.state.Retiring? then 1 else if Stopping(b) then 2 else 3
  }

  // c is b, the same or further on its way out, and its first failure stands.
  predicate Ahead(b: Branch, c: Branch) {
    Phase(c) <= Phase(b) && b.waits <= c.waits && (b.fault.Some? ==> c.fault == b.fault)
  }

  /** Whatever happens to a branch, it never turns back and never changes its first failure. */
  lemma NeverTurnsBack(b: Branch, f: Fault, r: PollReading, closing: Option<Fault>)
    ensures Ahead(b, Record(b, f)) && Ahead(b, Fail(b, f)) && Ahead(b, BeginDrain(b, closing).0)
            && Ahead(b, Poll(b, r).0)
  {
  }

  /** What a poll makes of a branch: one that runs and has not failed is left alone; one that has failed is
      broken; one that is draining and silent for too long fails; when its workers have exited it is reclaimed,
      and reported retired when that is done. */
  lemma PollMeans(b: Branch, r: PollReading)
    ensures var (c, retired) := Poll(b, r);
            && (retired <==> b.state.Gone? || (b.state.Retiring? && Exited(b, r))) && (retired ==> c.state.Gone?)
            && (b.state.Active? && b.fault.None? && !r.early ==> c == b)
            && (b.state.Active? || b.state.Closing? || b.state.Broken? ==> (c.state.Retiring? <==> Exited(b, r)))
            && (b.state.Active? && b.fault.Some? && !Exited(b, r) ==> c.state.Broken?)
            && (b.state.Closing? && b.fault.None? && !Exited(b, r) ==>
                  if r.silence.Some? then c.state.Broken? && c.fault == r.silence
                  else c.state.Closing? && c.fault.None?)
            && (b.state.Retiring? && !Exited(b, r) ==>
                  c.state.Retiring? && c.fault == if b.fault.Some? then b.fault else r.silence)
  {
  }

  // How many polls a stopping branch can still take when every reading's patience is at most k.
  function Left(b: Branch, k: nat): nat {
    if b.state.Gone? then 0 else Phase(b) + if b.waits < k then k - b.waits else 0
  }

  lemma AheadLeavesLess(b: Branch, c: Branch, k: nat)
    requires Ahead(b, c)
    ensures Left(c, k) <= Left(b, k)
  {
  }

  /** A stopping branch retires after finitely many polls: each poll of bounded patience either
      reports it retired or leaves strictly fewer polls to go. */
  lemma PollMakesProgress(b: Branch, r: PollReading, k: nat)
    requires Stopping(b) && !b.state.Prepared? && r.patience <= k
    ensures Stopping(Poll(b, r).0)
    ensures !Poll(b, r).1 ==> Left(Poll(b, r).0, k) < Left(b, k)
  {
  }
}
