/**
 * The `order_status` and `payment_method` enumerations of the store, and the
 * status graph the dashboard defines by the buttons it renders on each order card.
 */
module OrderStatus {

  datatype Status = Pending | Confirmed | Preparing | Ready | Completed | Cancelled

  datatype PaymentMethod = Cash | Card

  /** The target statuses of the buttons shown on an order card in status `s`, left to right. */
  function Actions(s: Status): seq<Status>
  {
    match s
    case Pending => [Confirmed, Cancelled]
    case Confirmed => [Preparing]
    case Preparing => [Ready]
    case Ready => [Completed]
    case Completed => []
    case Cancelled => []
  }

  /** The dashboard offers a button that moves an order from `from` to `to`. */
  predicate Offered(from: Status, to: Status)
  {
    to in Actions(from)
  }

  /** The offered transitions, listed edge by edge. */
  lemma OfferedExactly(from: Status, to: Status)
    ensures Offered(from, to) <==>
      || (from == Pending && to == Confirmed)
      || (from == Pending && to == Cancelled)
      || (from == Confirmed && to == Preparing)
      || (from == Preparing && to == Ready)
      || (from == Ready && to == Completed)
  {
  }

  /** `completed` and `cancelled` are terminal, and no button leads back to `pending`. */
  lemma TerminalAndInitial(s: Status)
    ensures (s == Completed || s == Cancelled) <==> Actions(s) == []
    ensures !Offered(s, Pending)
  {
  }

  /** A ranking that every offered transition raises. */
  function Rank(s: Status): nat
  {
    match s
    case Pending => 0
    case Confirmed => 1
    case Cancelled => 1
    case Preparing => 2
    case Ready => 3
    case Completed => 4
  }

  /** A sequence of statuses that follows offered transitions only. */
  ghost predicate IsPath(p: seq<Status>)
  {
    && |p| >= 1
    && forall i :: 0 <= i < |p| - 1 ==> Offered(p[i], p[i + 1])
  }

  /** Every step along a path raises the rank by at least one. */
  lemma {:induction false} PathRaisesRank(p: seq<Status>)
    requires IsPath(p)
    ensures Rank(p[0]) + |p| - 1 <= Rank(p[|p| - 1])
  {
    if |p| > 1 {
      var q := p[1..];
      forall i | 0 <= i < |q| - 1
        ensures Offered(q[i], q[i + 1])
      {
        assert Offered(p[i + 1], p[i + 2]);
      }
      PathRaisesRank(q);
      assert Offered(p[0], p[1]);
      assert Rank(p[0]) < Rank(p[1]);
    }
  }

  /** The graph is acyclic: a path of one or more transitions never returns to its start. */
  lemma Acyclic(p: seq<Status>)
    requires IsPath(p) && |p| >= 2
    ensures p[0] != p[|p| - 1]
  {
    PathRaisesRank(p);
  }

  /** An order changes status at most four times: every path visits at most five statuses. */
  lemma PathsAreShort(p: seq<Status>)
    requires IsPath(p)
    ensures |p| <= 5
  {
    PathRaisesRank(p);
  }

  /** `pending` is the only initial status: a path can hold it only at its start. */
  lemma PendingOnlyFirst(p: seq<Status>, i: nat)
    requires IsPath(p) && 0 < i < |p|
    ensures p[i] != Pending
  {
    assert Offered(p[i - 1], p[i]);
  }

  /** A path from `pending` to `s`: every status is reachable from `pending`. */
  function RouteFromPending(s: Status): (p: seq<Status>)
    ensures IsPath(p) && p[0] == Pending && p[|p| - 1] == s
  {
    match s
    case Pending => [Pending]
    case Confirmed => [Pending, Confirmed]
    case Cancelled => [Pending, Cancelled]
    case Preparing => [Pending, Confirmed, Preparing]
    case Ready => [Pending, Confirmed, Preparing, Ready]
    case Completed => [Pending, Confirmed, Preparing, Ready, Completed]
  }
}
