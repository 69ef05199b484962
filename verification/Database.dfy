/** The tables as the services update them in place, inside one transaction at a time. */
module Database {
  import opened Wrappers
  import opened Books
  import opened Orders
  import opened Tables

  class Database {
    var orders: map<OrderId, OrderRow>
    var items: map<OrderId, seq<OrderLine>>
    var payments: map<OrderId, PaymentRow>
    var stock: map<StockKey, Balance>
    var ledger: seq<Movement>
    var jobs: multiset<Job>

    constructor (t: Tables)
      ensures Contents() == t
    {
      orders, items, payments, stock, ledger, jobs :=
          t.orders, t.items, t.payments, t.books.stock, t.books.ledger, t.jobs;
    }

    function CurrentBooks(): Books
      reads this
    {
      Books(stock, ledger)
    }

    function Contents(): Tables
      reads this
    {
      Tables(orders, items, payments, CurrentBooks(), jobs)
    }

    /** ROLLBACK */
    method Restore(t: Tables)
      modifies this
      ensures Contents() == t
    {
      orders, items, payments, stock, ledger, jobs :=
          t.orders, t.items, t.payments, t.books.stock, t.books.ledger, t.jobs;
    }
  }
}
