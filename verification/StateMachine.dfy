/** The payment state machine: the transition table and the two lookups over it. */
module StateMachine {

  datatype Status = Pending | Processing | Success | Failed

  /** The transition table. The two empty rows make Success and Failed terminal. */
  function Transitions(from: Status): seq<Status> {
    match from
    case Pending => [Processing, Success, Failed]
    case Processing => [Success, Failed, Pending]
    case Success => []
    case Failed => []
  }

  predicate CanTransition(from: Status, to: Status) {
    to in Transitions(from)
  }

  predicate IsTerminal(status: Status) {
    |Transitions(status)| == 0
  }

  /** The only statuses a provider may report in a callback. */
  type FinalStatus = s: Status | IsTerminal(s) witness Success

  /** A sequence of statuses that follows the table edge by edge. */
  ghost predicate IsPath(path: seq<Status>) {
    forall i, j :: 0 <= i < j < |path| && j == i + 1 ==> CanTransition(path[i], path[j])
  }

  /** The legal moves, one by one. */
  lemma LegalMoves(from: Status, to: Status)
    ensures CanTransition(from, to) <==>
              || (from == Pending && to in {Processing, Success, Failed})
              || (from == Processing && to in {Success, Failed, Pending})
  {
  }

  /** Terminal means exactly that no legal move leaves the status. */
  lemma TerminalHasNoExit(status: Status)
    ensures IsTerminal(status) <==> forall to :: !CanTransition(status, to)
    ensures IsTerminal(status) <==> status == Success || status == Failed
  {
    if !IsTerminal(status) {
      assert CanTransition(status, Transitions(status)[0]);
    }
  }

  /** Only the last status of a path can be terminal. */
  lemma PathsEndAtTerminal(path: seq<Status>, i: nat)
    requires IsPath(path) && i + 1 < |path|
    ensures !IsTerminal(path[i])
  {
    assert CanTransition(path[i], path[i + 1]);
  }
}
