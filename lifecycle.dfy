/** The order status field: the five accepted values, which of them may be
    cancelled, and how an administrative status change stamps the shipped and
    delivered times. */
module Lifecycle {
  import opened Domain

  /** The `status` field of a status update: only the five names are accepted. */
  function ParseStatus(s: string): (r: Option<Status>)
    ensures r.Some? <==> s == "pending" || s == "processing" || s == "shipped" || s == "delivered" || s == "cancelled"
  {
    if s == "pending" then Some(Pending)
    else if s == "processing" then Some(Processing)
    else if s == "shipped" then Some(Shipped)
    else if s == "delivered" then Some(Delivered)
    else if s == "cancelled" then Some(Cancelled)
    else None
  }

  function StatusName(st: Status): string
  {
    match st
    case Pending => "pending"
    case Processing => "processing"
    case Shipped => "shipped"
    case Delivered => "delivered"
    case Cancelled => "cancelled"
  }

  /** Parsing is the inverse of naming, in both directions. */
  lemma ParseStatusInverse(st: Status, s: string)
    ensures ParseStatus(StatusName(st)) == Some(st)
    ensures ParseStatus(s) == Some(st) ==> StatusName(st) == s
  {
  }

  /** Only pending and processing orders may be cancelled. */
  predicate Cancellable(st: Status)
  {
    st == Pending || st == Processing
  }

  /** A timestamp that is set once: it takes `now` when the order enters the
      stamped status and has none yet, and is never overwritten. */
  function StampOnce(at: Option<Time>, entering: bool, now: Time): (r: Option<Time>)
    ensures at.Some? ==> r == at
    ensures at.None? ==> (r.Some? <==> entering)
    ensures r.Some? && at.None? ==> r == Some(now)
  {
    if entering && at.None? then Some(now) else at
  }

  /** The order after an administrative change to status `st` at time `now`:
      the status is replaced, `shipped_at` is set on entering `shipped` when
      still empty, else `delivered_at` on entering `delivered` when still
      empty. */
  function StatusUpdated(o: Order, st: Status, now: Time): (r: Order)
    ensures r.status == st
    ensures r.shippedAt == StampOnce(o.shippedAt, st == Shipped, now)
    ensures r.deliveredAt == StampOnce(o.deliveredAt, st == Delivered, now)
    ensures r == o.(status := st, shippedAt := r.shippedAt, deliveredAt := r.deliveredAt)
  {
    var updated := o.(status := st);
    if st == Shipped && updated.shippedAt.None? then updated.(shippedAt := Some(now))
    else if st == Delivered && updated.deliveredAt.None? then updated.(deliveredAt := Some(now))
    else updated
  }

  /** Repeating a status change, at any later time, changes nothing: the
      timestamp set by the first one stays. */
  lemma StatusUpdateIdempotent(o: Order, st: Status, now: Time, later: Time)
    ensures StatusUpdated(StatusUpdated(o, st, now), st, later) == StatusUpdated(o, st, now)
  {
  }
}
