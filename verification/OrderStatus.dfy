/** The order life cycle: which status may follow which. */
module OrderStatus {

  datatype Status = PENDING | PROCESSING | SHIPPED | DELIVERED | CANCELLED

  function Allowed(s: Status): set<Status> {
    match s
    case PENDING => {PROCESSING, CANCELLED}
    case PROCESSING => {SHIPPED, CANCELLED}
    case SHIPPED => {DELIVERED}
    case DELIVERED => {}
    case CANCELLED => {}
  }

  predicate CanTransition(current: Status, next: Status) { next in Allowed(current) }

  /** How far an order has come; cancelled and delivered orders are at the end. */
  function Rank(s: Status): nat {
    match s
    case PENDING => 0
    case PROCESSING => 1
    case SHIPPED => 2
    case DELIVERED => 3
    case CANCELLED => 3
  }

  /** Every legal transition climbs, so a life has at most three of them. */
  lemma TransitionsClimb(current: Status, next: Status)
    requires CanTransition(current, next)
    ensures Rank(current) < Rank(next) <= 3
  {
  }

  /** The legal transitions are one rank forward, or cancelling before the goods are shipped. */
  lemma TransitionsAreExact(current: Status, next: Status)
    ensures CanTransition(current, next) <==>
              || (next != CANCELLED && current != CANCELLED && Rank(next) == Rank(current) + 1)
              || (next == CANCELLED && Rank(current) <= 1)
  {
  }

  /** Nothing may follow exactly when the order is delivered or cancelled. */
  lemma OnlyTheEndIsFinal(s: Status)
    ensures (forall next :: !CanTransition(s, next)) <==> Rank(s) == 3
  {
    assert CanTransition(PENDING, PROCESSING) && CanTransition(PROCESSING, SHIPPED) && CanTransition(SHIPPED, DELIVERED);
  }
}
