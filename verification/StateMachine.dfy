/** The two transition tables of app/services/state_machine.py. */
module StateMachine {
  datatype PaymentStatus = Created | Processing | Success | Failed
  datatype TransactionState = Initiated | Pending | Success | Failed

  function IntentTargets(current: PaymentStatus): set<PaymentStatus> {
    match current
    case Created => {PaymentStatus.Processing}
    case Processing => {PaymentStatus.Success, PaymentStatus.Failed}
    case Success => {}
    case Failed => {}
  }

  function TransactionTargets(current: TransactionState): set<TransactionState> {
    match current
    case Initiated => {TransactionState.Pending}
    case Pending => {TransactionState.Success, TransactionState.Failed}
    case Success => {}
    case Failed => {}
  }

  predicate IntentMayMove(current: PaymentStatus, target: PaymentStatus) {
    target in IntentTargets(current)
  }

  predicate TransactionMayMove(current: TransactionState, target: TransactionState) {
    target in TransactionTargets(current)
  }

  /** The intent status that goes with the state of its one transaction. */
  function StatusFor(state: TransactionState): PaymentStatus {
    match state
    case Initiated => PaymentStatus.Created
    case Pending => PaymentStatus.Processing
    case Success => PaymentStatus.Success
    case Failed => PaymentStatus.Failed
  }

  /** How many moves lead to a state from the first one. */
  function Depth(state: TransactionState): nat {
    match state
    case Initiated => 0
    case Pending => 1
    case Success => 2
    case Failed => 2
  }

  /** Both tables are one linear pipeline that forks at its end: a move is legal exactly when it goes one step on, and
      legal for a transaction exactly when it is for its intent. */
  lemma MovesGoOneStepOn(current: TransactionState, target: TransactionState)
    ensures TransactionMayMove(current, target) <==> Depth(target) == Depth(current) + 1
    ensures IntentMayMove(StatusFor(current), StatusFor(target)) <==> TransactionMayMove(current, target)
    ensures StatusFor(current) == StatusFor(target) <==> current == target
  { }

  /** `target` is reached from `current` by a chain of legal moves; no chain is longer than two. */
  predicate IntentReaches(current: PaymentStatus, target: PaymentStatus) {
    || current == target
    || IntentMayMove(current, target)
    || exists mid :: IntentMayMove(current, mid) && IntentMayMove(mid, target)
  }

  predicate TransactionReaches(current: TransactionState, target: TransactionState) {
    || current == target
    || TransactionMayMove(current, target)
    || exists mid :: TransactionMayMove(current, mid) && TransactionMayMove(mid, target)
  }
}
