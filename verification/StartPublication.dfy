/** The one-shot gate between the creator of a session and its event thread. */
module StartPublication {

  datatype Gate = Pending | Published | Cancelled

  // The event thread waits at the gate, then enters (it owns the session) or leaves.
  datatype Waiter = Waiting | Entered | Left

  datatype Start = Start(gate: Gate, waiter: Waiter)

  const CLOSED: Start := Start(Pending, Waiting)

  datatype Step = PublishOwnership | Cancel | Look

  // A compare-and-swap from Pending: the first decision stands.
  function Decide(g: Gate, destination: Gate): Gate {
    if g.Pending? then destination else g
  }

  function Apply(s: Start, step: Step): Start {
    match step
    case PublishOwnership => s.(gate := Decide(s.gate, Published))
    case Cancel => s.(gate := Decide(s.gate, Cancelled))
    case Look =>
      if !s.waiter.Waiting? || s.gate.Pending? then s
      else s.(waiter := if s.gate.Published? then Entered else Left)
  }

  function Run(s: Start, steps: seq<Step>): Start
    decreases |steps|
  {
    if steps == [] then s else Run(Apply(s, steps[0]), steps[1..])
  }

  // What the first deciding step decides.
  function FirstDecision(steps: seq<Step>): Gate {
    if steps == [] then Pending
    else if steps[0].PublishOwnership? then Published
    else if steps[0].Cancel? then Cancelled
    else FirstDecision(steps[1..])
  }

  /** In every interleaving the first decision stands, and the event thread enters only if it was
      the publication of its ownership: no event can come before that. */
  lemma {:induction false} FirstDecisionWins(s: Start, steps: seq<Step>)
    requires (s.waiter.Entered? ==> s.gate.Published?) && (s.waiter.Left? ==> s.gate.Cancelled?)
    ensures var t := Run(s, steps);
            && t.gate == (if s.gate.Pending? then FirstDecision(steps) else s.gate)
            && (t.waiter.Entered? ==> t.gate.Published?) && (t.waiter.Left? ==> t.gate.Cancelled?)
    decreases |steps|
  {
    if steps != [] {
      FirstDecisionWins(Apply(s, steps[0]), steps[1..]);
    }
  }

  /** The wait ends: a look after the decision enters or leaves. */
  lemma DecidedWaiterMoves(steps: seq<Step>)
    requires !FirstDecision(steps).Pending?
    ensures var t := Apply(Run(CLOSED, steps), Look);
            t.waiter == if FirstDecision(steps).Published? then Entered else Left
  {
    FirstDecisionWins(CLOSED, steps);
  }

  // The gate object.
  class Publication {
    var gate: Gate

    constructor ()
      ensures gate == Pending
    {
      gate := Pending;
    }

    method PublishOwnership()
      modifies this
      ensures gate == Decide(old(gate), Published)
    {
      if gate.Pending? { gate := Published; }
    }

    method CancelStart()
      modifies this
      ensures gate == Decide(old(gate), Cancelled)
    {
      if gate.Pending? { gate := Cancelled; }
    }

    /** The wait of the event thread; `others` is what the other threads do meanwhile. It returns once
        they have decided, with their first decision. */
    method WaitForOwnership(others: seq<Step>) returns (owned: bool)
      requires gate.Pending? ==> !FirstDecision(others).Pending?
      modifies this
      ensures gate == if old(gate).Pending? then FirstDecision(others) else old(gate)
      ensures owned == gate.Published?
    {
      var i := 0;
      while gate.Pending?
        invariant 0 <= i <= |others|
        invariant gate.Pending? ==> old(gate).Pending? && !FirstDecision(others).Pending?
        invariant gate.Pending? ==> FirstDecision(others[i..]) == FirstDecision(others)
        invariant !gate.Pending? ==> gate == if old(gate).Pending? then FirstDecision(others) else old(gate)
        decreases |others| - i
      {
        assert others[i..][1..] == others[i + 1..];
        match others[i] {
          case PublishOwnership => PublishOwnership();
          case Cancel => CancelStart();
          case Look =>
        }
        i := i + 1;
      }
      owned := gate.Published?;
    }
  }
}
