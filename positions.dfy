/** Positions of log entries: a ledger id and an entry id within that ledger. */
module Positions {

  /** The key of a cached entry. Both ids are Java longs; the model does not bound them. */
  datatype Position = Position(ledgerId: int, entryId: int)

  /** The total order on positions: by ledger first, then by entry. */
  predicate Before(p: Position, q: Position) {
    p.ledgerId < q.ledgerId || (p.ledgerId == q.ledgerId && p.entryId < q.entryId)
  }

  /** Position.compareTo: negative, zero or positive as `p` lies before, at or after `q`. */
  function Compare(p: Position, q: Position): (r: int)
    ensures r < 0 <==> Before(p, q)
    ensures r == 0 <==> p == q
    ensures r > 0 <==> Before(q, p)
  {
    if p.ledgerId < q.ledgerId then -1
    else if p.ledgerId > q.ledgerId then 1
    else if p.entryId < q.entryId then -1
    else if p.entryId > q.entryId then 1
    else 0
  }
}
