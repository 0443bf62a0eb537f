/**
 * The order-history page: the archived orders, the status filter over them
 * and the filter buttons, of which only the "Status" group is wired up.
 */
module OrderHistory {
  import Seqs
  import opened Wrappers

  datatype Payment = Card | Cash | QR

  datatype HistoryStatus = Completed | Cancelled

  /** The text shown for a status, which is also the name of its filter option. */
  function HistoryStatusName(s: HistoryStatus): (n: string)
    ensures n == "Completed" || n == "Cancelled"
  {
    match s
    case Completed => "Completed"
    case Cancelled => "Cancelled"
  }

  /** `HistoryOrder`; the optional `notes` field is an `Option`. */
  datatype HistoryOrder = HistoryOrder(
    id: string, table: string, guests: int, items: string, total: string, payment: Payment,
    status: HistoryStatus, date: string, timeAgo: string, server: string, tips: string,
    notes: Option<string>)

  /** `HISTORY_ORDERS`: six archived orders, newest first. */
  const HistoryOrders: seq<HistoryOrder> := [
    HistoryOrder("ORD-4987", "T02", 2, "Lunar tasting menu \U{00B7} Zero proof pairing", "$218.40", Card,
      Completed, "2024-11-01", "18 minutes ago", "Jordan", "$42.00",
      Some("Birthday celebration, added kitchen sparkler")),
    HistoryOrder("ORD-4986", "T14", 4, "Chef omakase \U{00B7} Wine pairing", "$612.00", Card,
      Completed, "2024-10-31", "1 hour ago", "Priya", "$120.00", None),
    HistoryOrder("ORD-4985", "T07", 3, "\U{00C0} la carte \U{00B7} 3D dessert reveal", "$182.75", QR,
      Completed, "2024-10-31", "2 hours ago", "Mia", "$28.00", Some("Guest requested dairy-free syrup")),
    HistoryOrder("ORD-4984", "T11", 2, "Mocktail pairing \U{00B7} Shared plates", "$128.40", Cash,
      Cancelled, "2024-10-31", "Cancelled 3 hours ago", "Liam", "$0.00",
      Some("Guest rescheduled due to emergency")),
    HistoryOrder("ORD-4983", "T04", 1, "Lunch prix fixe", "$48.60", Card,
      Completed, "2024-10-30", "Yesterday", "Alex", "$9.00", None),
    HistoryOrder("ORD-4982", "T19", 6, "Family-style menu", "$354.20", QR,
      Completed, "2024-10-29", "2 days ago", "Jamie", "$68.00", Some("Noted positive feedback on AR menu"))
  ]

  /** The status filter's test for a selected option. */
  function StatusIs(active: string): HistoryOrder -> bool {
    (o: HistoryOrder) => HistoryStatusName(o.status) == active
  }

  /** `filteredOrders`: "All" shows the whole archive, any other option the orders of that status. */
  function FilterHistory(orders: seq<HistoryOrder>, active: string): (r: seq<HistoryOrder>)
    ensures active == "All" ==> r == orders
    ensures active != "All" ==>
      forall o :: multiset(r)[o] == if HistoryStatusName(o.status) == active then multiset(orders)[o] else 0
  {
    if active == "All" then orders else Seqs.Filter(orders, StatusIs(active))
  }

  /** The kept orders stay in archive order, so "Showing X of Y archived orders" has X at most Y. */
  lemma FilterHistorySubsequence(orders: seq<HistoryOrder>, active: string)
    ensures Seqs.IsSubsequence(FilterHistory(orders, active), orders)
    ensures |FilterHistory(orders, active)| <= |orders|
  {
    if active == "All" {
      Seqs.SubsequenceReflexive(orders);
    } else {
      Seqs.FilterIsSubsequence(orders, StatusIs(active));
    }
  }

  /** An option that names no status, such as a Table or Date option, would show nothing. */
  lemma OtherOptionShowsNothing(orders: seq<HistoryOrder>, active: string)
    requires active != "All" && active != "Completed" && active != "Cancelled"
    ensures FilterHistory(orders, active) == []
  {
    assert forall o :: o in orders ==> !StatusIs(active)(o);
    Seqs.FilterNone(orders, StatusIs(active));
  }

  /** The completed and the cancelled views together account for the whole archive. */
  lemma {:induction false} StatusViewsPartition(orders: seq<HistoryOrder>)
    ensures |FilterHistory(orders, "Completed")| + |FilterHistory(orders, "Cancelled")| == |orders|
  {
    if orders != [] {
      StatusViewsPartition(orders[1..]);
    }
  }

  /** The page's filter state: the selected status option. */
  class HistoryFilters {
    var activeStatus: string

    /** The page opens on "All". */
    constructor ()
      ensures activeStatus == "All"
    {
      activeStatus := "All";
    }

    /** The orders the table shows. */
    function Shown(): seq<HistoryOrder>
      reads this
    {
      FilterHistory(HistoryOrders, activeStatus)
    }

    /** A button is highlighted when it is in the "Status" group and is the selected option. */
    function IsHighlighted(group: string, option: string): (highlighted: bool)
      reads this
      ensures highlighted ==> Shown() == FilterHistory(HistoryOrders, option)
    {
      group == "Status" && activeStatus == option
    }

    /** `filter.label === "Status" && setActiveStatus(option)`: the other groups' buttons do nothing. */
    method Click(group: string, option: string)
      modifies this
      ensures group == "Status" ==> activeStatus == option && IsHighlighted(group, option)
      ensures group != "Status" ==> activeStatus == old(activeStatus)
    {
      if group == "Status" {
        activeStatus := option;
      }
    }
  }
}
