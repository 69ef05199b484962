/** The order entity: the status machine, and the object whose guarded methods move it. */
module Orders {
  import opened Wrappers
  import opened Books

  datatype OrderStatus = PendingPayment | Paid | Confirmed | PaymentFailed | Cancelled

  /** A row of the orders table. */
  datatype OrderRow = OrderRow(customer: nat, totalCents: int, warehouse: Option<WarehouseId>, status: OrderStatus,
                               expiresAt: Option<int>, confirmedAt: Option<int>, cancelledAt: Option<int>,
                               reason: Option<string>, createdAt: int)

  function Transitions(from: OrderStatus): set<OrderStatus> {
    match from
    case PendingPayment => {Paid, PaymentFailed, Cancelled}
    case Paid => {Confirmed}
    case Confirmed => {}
    case PaymentFailed => {}
    case Cancelled => {}
  }

  predicate IsTerminal(status: OrderStatus) {
    Transitions(status) == {}
  }

  predicate CanTransition(from: OrderStatus, to: OrderStatus) {
    to in Transitions(from)
  }

  /** The table's edges, and no other. */
  lemma EdgesAre(from: OrderStatus, to: OrderStatus)
    ensures CanTransition(from, to) <==>
            || (from == PendingPayment && (to == Paid || to == PaymentFailed || to == Cancelled))
            || (from == Paid && to == Confirmed)
  {
  }

  /** Some chain of table edges leads from one status to the other. */
  ghost predicate Reaches(from: OrderStatus, to: OrderStatus, path: seq<OrderStatus>) {
    && |path| > 0 && path[0] == from && path[|path| - 1] == to
    && forall i | 0 <= i < |path| - 1 :: CanTransition(path[i], path[i + 1])
  }

  /** No chain of edges leaves a terminal status, and CONFIRMED is entered from PENDING_PAYMENT only through PAID. */
  lemma StatusPaths(from: OrderStatus, to: OrderStatus, path: seq<OrderStatus>)
    requires Reaches(from, to, path)
    ensures IsTerminal(from) ==> to == from
    ensures from == PendingPayment && to == Confirmed ==> path == [PendingPayment, Paid, Confirmed]
    ensures |path| <= 3
  {
    if |path| > 1 {
      assert CanTransition(path[0], path[1]);
      if |path| > 2 {
        assert CanTransition(path[1], path[2]);
        assert |path| > 3 ==> CanTransition(path[2], path[3]);
      }
    }
  }

  class Order {
    const customer: nat
    const totalCents: int
    const warehouse: Option<WarehouseId>
    const expiresAt: Option<int>
    var status: OrderStatus
    var confirmedAt: Option<int>
    var cancelledAt: Option<int>
    var reason: Option<string>

    /** orderToDomain */
    constructor (row: OrderRow)
      ensures status == row.status
      ensures forall now :: ToRow(now) == row.(createdAt := now)
    {
      customer, totalCents, warehouse, expiresAt := row.customer, row.totalCents, row.warehouse, row.expiresAt;
      status, confirmedAt, cancelledAt, reason := row.status, row.confirmedAt, row.cancelledAt, row.reason;
    }

    /** orderToPersistence: the whole row, with created_at stamped afresh. */
    function ToRow(now: int): OrderRow
      reads this
    {
      OrderRow(customer, totalCents, warehouse, status, expiresAt, confirmedAt, cancelledAt, reason, now)
    }

    /** Every transition method answers false where the source throws, and then changes nothing. */
    method MarkPaid() returns (ok: bool)
      modifies this`status
      ensures ok == CanTransition(old(status), Paid)
      ensures status == if ok then Paid else old(status)
    {
      ok := CanTransition(status, Paid);
      if ok {
        status := Paid;
      }
    }

    method MarkPaymentFailed() returns (ok: bool)
      modifies this`status
      ensures ok == CanTransition(old(status), PaymentFailed)
      ensures status == if ok then PaymentFailed else old(status)
    {
      ok := CanTransition(status, PaymentFailed);
      if ok {
        status := PaymentFailed;
      }
    }

    method Confirm(now: int) returns (ok: bool)
      modifies this`status, this`confirmedAt
      ensures ok == CanTransition(old(status), Confirmed)
      ensures status == if ok then Confirmed else old(status)
      ensures confirmedAt == if ok then Some(now) else old(confirmedAt)
    {
      ok := CanTransition(status, Confirmed);
      if ok {
        status, confirmedAt := Confirmed, Some(now);
      }
    }

    method Cancel(why: string, now: int) returns (ok: bool)
      modifies this`status, this`cancelledAt, this`reason
      ensures ok == CanTransition(old(status), Cancelled)
      ensures status == if ok then Cancelled else old(status)
      ensures cancelledAt == if ok then Some(now) else old(cancelledAt)
      ensures reason == if ok then Some(why) else old(reason)
    {
      ok := CanTransition(status, Cancelled);
      if ok {
        status, cancelledAt, reason := Cancelled, Some(now), Some(why);
      }
    }
  }
}
