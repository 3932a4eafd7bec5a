/**
 The hand-off of one candidate between the control thread and its preparation worker. Each function
 is one critical section of the mutex; a wait is split at the point where it releases the mutex.
 */
module PreparationExchange {

  datatype Stage = Planning | Planned | Constructing | Constructed | Releasing | Complete

  // Where the worker stands; in the two Awaiting states it sleeps on the condition.
  datatype Worker = Preparing | AwaitingConstruct | Building | AwaitingRelease | Unwinding | Done

  // `builds` counts how often the worker has begun constructing.
  datatype Exchange = Exchange(stage: Stage, construct: bool, release: bool, worker: Worker, builds: nat)

  const FRESH: Exchange := Exchange(Planning, false, false, Preparing, 0)

  function Construct(x: Exchange): Exchange {
    x.(construct := true, stage := Constructing)
  }

  function Release(x: Exchange): Exchange {
    x.(release := true,
       stage := if x.stage.Planned? || x.stage.Constructed? then Releasing else x.stage)
  }

  function LeavePlanned(x: Exchange): Exchange {
    if x.release then x.(stage := Releasing, worker := Unwinding)
    else if x.construct then x.(stage := Constructing, worker := Building, builds := x.builds + 1)
    else x.(worker := AwaitingConstruct)
  }

  function LeaveConstructed(x: Exchange): Exchange {
    if x.release then x.(stage := Releasing, worker := Unwinding)
    else x.(worker := AwaitingRelease)
  }

  // The worker's next critical section; a sleeping worker without its wake-up flag stays put.
  function WorkerMove(x: Exchange): Exchange {
    match x.worker
    case Preparing => LeavePlanned(x.(stage := Planned))
    case AwaitingConstruct => LeavePlanned(x)
    case Building => LeaveConstructed(x.(stage := Constructed))
    case AwaitingRelease => LeaveConstructed(x)
    case Unwinding => x.(stage := Complete, worker := Done)
    case Done => x
  }

  // The control thread constructs only what it has just seen Planned; it may release at any time.
  datatype Step = ControlConstruct | ControlRelease | WorkerStep

  function Apply(x: Exchange, step: Step): Exchange {
    match step
    case ControlConstruct => if x.stage.Planned? then Construct(x) else x
    case ControlRelease => Release(x)
    case WorkerStep => WorkerMove(x)
  }

  function Run(x: Exchange, steps: seq<Step>): Exchange
    decreases |steps|
  {
    if steps == [] then x else Run(Apply(x, steps[0]), steps[1..])
  }

  // The control thread touches the candidate only after seeing one of these stages.
  predicate ControlOwns(x: Exchange) {
    x.stage.Planned? || x.stage.Constructed?
  }

  // The worker touches the candidate only while it runs one of these.
  predicate WorkerOwns(x: Exchange) {
    x.worker.Preparing? || x.worker.Building? || x.worker.Unwinding?
  }

  predicate Valid(x: Exchange) {
    && (x.worker.Preparing? ==> x.stage.Planning? && !x.construct && x.builds == 0)
    && (x.worker.AwaitingConstruct? ==>
          x.builds == 0 && x.stage == (if x.construct then Constructing else if x.release then Releasing else Planned))
    && (x.worker.Building? ==> x.stage.Constructing? && x.construct && x.builds == 1)
    && (x.worker.AwaitingRelease? ==>
          x.construct && x.builds == 1 && x.stage == if x.release then Releasing else Constructed)
    && (x.worker.Unwinding? ==> x.stage.Releasing? && x.release)
    && (x.worker.Done? ==> x.stage.Complete? && x.release)
    && x.builds <= 1
    && (x.builds == 1 ==> x.construct)
  }

  function Order(s: Stage): nat {
    match s
    case Planning => 0
    case Planned => 1
    case Constructing => 2
    case Constructed => 3
    case Releasing => 4
    case Complete => 5
  }

  /** Exclusive hand-off: the two threads never own the candidate together, and while the control
      thread owns it the worker cannot move. */
  lemma HandOffIsExclusive(x: Exchange)
    requires Valid(x)
    ensures !(ControlOwns(x) && WorkerOwns(x))
    ensures ControlOwns(x) ==> WorkerMove(x) == x
    ensures !ControlOwns(x) && !x.worker.Done? ==> WorkerMove(x) != x
  {
  }

  // How many moves the worker still needs once it has been released.
  function Remaining(x: Exchange): nat {
    match x.worker
    case Preparing => 2
    case AwaitingConstruct => 2
    case Building => 2
    case AwaitingRelease => 2
    case Unwinding => 1
    case Done => 0
  }

  lemma StepKeepsValid(x: Exchange, step: Step)
    requires Valid(x)
    ensures Valid(Apply(x, step))
    ensures Order(x.stage) <= Order(Apply(x, step).stage)
    ensures x.release ==> Apply(x, step).release
    ensures x.release && step.WorkerStep? && !x.worker.Done? ==> Remaining(Apply(x, step)) < Remaining(x)
    ensures x.release ==> Remaining(Apply(x, step)) <= Remaining(x)
  {
  }

  /** Every interleaving from a fresh exchange: ownership stays exclusive, stages only advance, the
      candidate is constructed at most once and only after construct(). */
  lemma {:induction false} RunKeepsValid(x: Exchange, steps: seq<Step>)
    requires Valid(x)
    ensures Valid(Run(x, steps))
    ensures Order(x.stage) <= Order(Run(x, steps).stage)
    ensures Run(x, steps).builds <= 1
    ensures Run(x, steps).builds == 1 ==> Run(x, steps).construct
    decreases |steps|
  {
    if steps != [] {
      StepKeepsValid(x, steps[0]);
      RunKeepsValid(Apply(x, steps[0]), steps[1..]);
    }
  }

  function WorkerSteps(steps: seq<Step>): nat {
    if steps == [] then 0
    else (if steps[0].WorkerStep? then 1 else 0) + WorkerSteps(steps[1..])
  }

  /** Once released, at whatever stage, the worker completes within two of its own moves, in every
      interleaving with the control thread. */
  lemma {:induction false} ReleasedWorkerCompletes(x: Exchange, steps: seq<Step>)
    requires Valid(x) && x.release
    requires Remaining(x) <= WorkerSteps(steps)
    ensures Run(x, steps).worker.Done? && Run(x, steps).stage.Complete?
    decreases |steps|
  {
    if steps == [] {
    } else {
      StepKeepsValid(x, steps[0]);
      ReleasedWorkerCompletes(Apply(x, steps[0]), steps[1..]);
    }
  }

  /** A release sent at any moment of any run is enough to bring the worker home. */
  lemma ReleaseAlwaysWorks(before: seq<Step>, after: seq<Step>)
    requires 2 <= WorkerSteps(after)
    ensures Run(Release(Run(FRESH, before)), after).stage.Complete?
  {
    RunKeepsValid(FRESH, before);
    var x := Run(FRESH, before);
    StepKeepsValid(x, ControlRelease);
    ReleasedWorkerCompletes(Release(x), after);
  }
}

/** The exchange object; each method is one critical section. */
module PreparationExchangeObject {
  import PreparationExchange

  class Exchange {
    var stage: PreparationExchange.Stage
    var construct: bool
    var release: bool
    ghost var worker: PreparationExchange.Worker
    ghost var builds: nat

    ghost function Model(): PreparationExchange.Exchange
      reads this
    {
      PreparationExchange.Exchange(stage, construct, release, worker, builds)
    }

    constructor ()
      ensures Model() == PreparationExchange.FRESH
    {
      stage := PreparationExchange.Planning;
      construct, release := false, false;
      worker, builds := PreparationExchange.Preparing, 0;
    }

    // The worker enters planned(), or wakes inside it: whether it sleeps on, and whether to build.
    method Planned() returns (asleep: bool, build: bool)
      requires PreparationExchange.Valid(Model())
      requires worker.Preparing? || worker.AwaitingConstruct?
      modifies this
      ensures Model() == PreparationExchange.WorkerMove(old(Model()))
      ensures PreparationExchange.Valid(Model())
      ensures asleep == worker.AwaitingConstruct? && build == worker.Building?
    {
      if stage.Planning? { stage := PreparationExchange.Planned; }
      asleep, build := !construct && !release, false;
      if release {
        stage, worker := PreparationExchange.Releasing, PreparationExchange.Unwinding;
      } else if construct {
        stage, build := PreparationExchange.Constructing, true;
        worker, builds := PreparationExchange.Building, builds + 1;
      } else {
        worker := PreparationExchange.AwaitingConstruct;
      }
    }

    // The worker enters constructed(), or wakes inside it.
    method Constructed() returns (asleep: bool)
      requires PreparationExchange.Valid(Model())
      requires worker.Building? || worker.AwaitingRelease?
      modifies this
      ensures Model() == PreparationExchange.WorkerMove(old(Model()))
      ensures PreparationExchange.Valid(Model())
      ensures asleep == worker.AwaitingRelease?
    {
      if stage.Constructing? { stage := PreparationExchange.Constructed; }
      asleep := !release;
      worker := PreparationExchange.AwaitingRelease;
      if release {
        stage, worker := PreparationExchange.Releasing, PreparationExchange.Unwinding;
      }
    }

    method Construct()
      requires PreparationExchange.Valid(Model()) && stage.Planned?
      modifies this
      ensures Model() == PreparationExchange.Construct(old(Model()))
      ensures PreparationExchange.Valid(Model())
    {
      construct := true;
      stage := PreparationExchange.Constructing;
    }

    method Release()
      requires PreparationExchange.Valid(Model())
      modifies this
      ensures Model() == PreparationExchange.Release(old(Model()))
      ensures PreparationExchange.Valid(Model())
    {
      release := true;
      if stage.Planned? || stage.Constructed? { stage := PreparationExchange.Releasing; }
    }

    method Complete()
      requires PreparationExchange.Valid(Model()) && worker.Unwinding?
      modifies this
      ensures Model() == PreparationExchange.WorkerMove(old(Model()))
      ensures PreparationExchange.Valid(Model())
    {
      stage, worker := PreparationExchange.Complete, PreparationExchange.Done;
    }
  }
}
