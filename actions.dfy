/** The engine's four action records and the kinds its legal-action sets are made of. */
module Actions {

  /** A nullable value: the engine's `None` in a seat list. */
  datatype Option<T> = None | Some(value: T)

  /** What a legal-action set contains: the action classes, not action values. */
  datatype ActionKind = Fold | Call | Check | Raise

  /** A move by the active player; a raise carries the total pip it raises to. */
  datatype Action = FoldAction | CallAction | CheckAction | RaiseAction(amount: int)
  {
    function Kind(): (kind: ActionKind) {
      match this
      case FoldAction => Fold
      case CallAction => Call
      case CheckAction => Check
      case RaiseAction(_) => Raise
    }
  }

  /** The action value built from a kind that carries no amount. */
  function KindAction(kind: ActionKind): (a: Action)
    requires kind != Raise
    ensures a.Kind() == kind && !a.RaiseAction?
  {
    match kind
    case Fold => FoldAction
    case Call => CallAction
    case Check => CheckAction
  }

  /** The class name of each kind, as it appears in the game log. */
  function KindName(kind: ActionKind): (name: string) {
    match kind
    case Fold => "FoldAction"
    case Call => "CallAction"
    case Check => "CheckAction"
    case Raise => "RaiseAction"
  }
}
