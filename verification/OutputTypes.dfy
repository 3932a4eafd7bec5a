/** Vocabulary shared by the mailbox, the branches and the output controller. */
module OutputTypes {
  import opened Wrappers

  // Largest 64-bit identifier; identifier spaces refuse to hand it out.
  const MAX_ID: nat := 0xFFFF_FFFF_FFFF_FFFF

  // An error is opaque: only its identity matters to the protocol.
  type Error = nat

  // An output as its callers see it.
  datatype OutputState = Preparing | Waiting | Running | Draining | Retired | Failed

  datatype Stage = Planning | Preparation | Publication | Runtime | Drain | Release

  datatype Fault = Fault(error: Error, stage: Stage)

  datatype Snapshot = Snapshot(id: nat, state: OutputState, stage: Stage, error: Option<Error>)

  // An admitted command: an addition, or (addition == false) a removal.
  datatype Change = Change(id: nat, addition: bool)

  // The order in which a published state may advance.
  function Rank(s: OutputState): nat {
    match s
    case Preparing => 0
    case Waiting => 1
    case Running => 2
    case Draining => 3
    case Failed => 4
    case Retired => 5
  }
}
