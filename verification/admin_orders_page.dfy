/** The live order board for staff: the search filter, the status actions
    offered for the selected order, the notes sent with a status change, and
    the page state kept in step with the server by refetching. */
module AdminOrdersPage {
  import opened Wrappers
  import opened Schema
  import opened Text
  import opened Seqs

  /** An order passes the search when its id, written in decimal, contains
      the query, or its user's lower-cased name contains the lower-cased
      query, or its table number contains the query. */
  predicate MatchesSearch(o: OrderView, query: string) {
    || Contains(IntToString(o.id), query)
    || (o.user.Some? && o.user.value.name.Some? && Contains(Lower(o.user.value.name.value), Lower(query)))
    || (o.tableNumber.Some? && Contains(o.tableNumber.value, query))
  }

  /** filteredOrders. */
  function FilterOrders(orders: seq<OrderView>, query: string): (r: seq<OrderView>)
    ensures IsSubsequence(r, orders)
    ensures forall i | 0 <= i < |r| :: r[i] in orders && MatchesSearch(r[i], query)
    ensures forall i | 0 <= i < |orders| && MatchesSearch(orders[i], query) :: orders[i] in r
  {
    Filter(orders, (o: OrderView) => MatchesSearch(o, query))
  }

  /** An empty search box shows every order, in order. */
  lemma EmptySearchKeepsAll(orders: seq<OrderView>)
    ensures FilterOrders(orders, "") == orders
  {
    forall o | o in orders ensures MatchesSearch(o, "") {
      ContainsEmpty(IntToString(o.id));
    }
    FilterKeepsAll(orders, (o: OrderView) => MatchesSearch(o, ""));
  }

  /** Searching by the full id finds the order. */
  lemma SearchById(o: OrderView)
    ensures MatchesSearch(o, IntToString(o.id))
  {
    ContainsSelf(IntToString(o.id));
  }

  /** The notes field of the request: the explicit message, else the
      message typed in the panel, else no field at all. */
  function NotesFor(message: Option<string>, customMessage: string): (r: Option<string>)
    ensures message.Some? && message.value != "" ==> r == message
    ensures (message.None? || message == Some("")) && customMessage != "" ==> r == Some(customMessage)
    ensures r.None? <==> (message.None? || message == Some("")) && customMessage == ""
    ensures r.Some? ==> r.value != ""
  {
    if message.Some? && message.value != "" then message
    else if customMessage != "" then Some(customMessage)
    else None
  }

  /** The status buttons the detail panel shows for an order. */
  function OfferedActions(status: string): (r: seq<string>)
    ensures status == COMPLETED ==> r == []
    ensures COMPLETED in r <==> status == READY
    ensures PREPARING in r <==> status != COMPLETED
    ensures READY in r <==> status != COMPLETED
  {
    if status == COMPLETED then []
    else [PREPARING, READY] + (if status == READY then [COMPLETED] else [])
  }

  const STATUS_COLORS: map<string, string> := map[
    PENDING := "bg-amber-500/10 text-amber-500 border-amber-500/20",
    PREPARING := "bg-blue-500/10 text-blue-500 border-blue-500/20",
    READY := "bg-purple-500/10 text-purple-500 border-purple-500/20",
    COMPLETED := "bg-emerald-500/10 text-emerald-500 border-emerald-500/20 shadow-lg shadow-emerald-500/10",
    CANCELLED := "bg-red-500/10 text-red-500 border-red-500/20"
  ]

  /** The badge colour: the status's own, PENDING's when it has none. */
  function StatusColor(status: string): (c: string)
    ensures status in STATUS_COLORS ==> c == STATUS_COLORS[status]
    ensures status !in STATUS_COLORS ==> c == STATUS_COLORS[PENDING]
  {
    if status in STATUS_COLORS then STATUS_COLORS[status] else STATUS_COLORS[PENDING]
  }

  /** Array.prototype.find by id. */
  function FindById(orders: seq<OrderView>, id: int): (r: Option<OrderView>)
    ensures r.Some? ==> r.value in orders && r.value.id == id
    ensures r.None? <==> forall i | 0 <= i < |orders| :: orders[i].id != id
    ensures r.Some? ==> exists i | 0 <= i < |orders| ::
      orders[i] == r.value && forall j | 0 <= j < i :: orders[j].id != id
    decreases |orders|
  {
    if orders == [] then None
    else if orders[0].id == id then Some(orders[0])
    else
      var r := FindById(orders[1..], id);
      assert forall j | 1 <= j < |orders| :: orders[j] == orders[1..][j - 1];
      r
  }

  /** The PATCH body of a status change. */
  datatype StatusRequest = StatusRequest(orderId: int, status: string, notes: Option<string>)

  class AdminOrdersPage {
    var orders: seq<OrderView>
    var loading: bool
    var searchQuery: string
    var selected: Option<OrderView>
    /** The order whose status change is in flight. */
    var updating: Option<int>
    var customMessage: string

    constructor ()
      ensures orders == [] && loading && searchQuery == "" && selected.None?
      ensures updating.None? && customMessage == ""
    {
      orders := [];
      loading := true;
      searchQuery := "";
      selected := None;
      updating := None;
      customMessage := "";
    }

    /** A click on an order in the list. */
    method Select(o: OrderView)
      modifies this
      ensures selected == Some(o) && orders == old(orders) && loading == old(loading)
      ensures searchQuery == old(searchQuery) && updating == old(updating)
      ensures customMessage == old(customMessage)
    {
      selected := Some(o);
    }

    /** fetchOrders as seen by a closure that knows `seen` as the selected
        order: the reply replaces the list and, when `seen` is set and the
        reply holds an order with its id, that order becomes the selection.
        Loading ends whether or not the reply arrived. */
    method FetchOrders(reply: Option<seq<OrderView>>, seen: Option<OrderView>)
      modifies this
      ensures !loading
      ensures orders == (if reply.Some? then reply.value else old(orders))
      ensures reply.Some? && seen.Some? && FindById(reply.value, seen.value.id).Some? ==>
        selected == FindById(reply.value, seen.value.id)
      ensures !(reply.Some? && seen.Some? && FindById(reply.value, seen.value.id).Some?) ==>
        selected == old(selected)
      ensures searchQuery == old(searchQuery) && updating == old(updating)
      ensures customMessage == old(customMessage)
    {
      if reply.Some? {
        orders := reply.value;
        if seen.Some? {
          var refreshed := FindById(reply.value, seen.value.id);
          if refreshed.Some? {
            selected := refreshed;
          }
        }
      }
      loading := false;
    }

    /** The 15-second poll as written: the interval keeps the fetchOrders
        of the first render, which saw no selected order, so a poll never
        refreshes the selection. */
    method PollAsWritten(reply: Option<seq<OrderView>>)
      modifies this
      ensures !loading && orders == (if reply.Some? then reply.value else old(orders))
      ensures selected == old(selected)
      ensures searchQuery == old(searchQuery) && updating == old(updating) && customMessage == old(customMessage)
    {
      FetchOrders(reply, None);
    }

    /** The poll as its comment intends: the current selection is re-synced
        from the fetched list. */
    method Poll(reply: Option<seq<OrderView>>)
      modifies this
      ensures !loading && orders == (if reply.Some? then reply.value else old(orders))
      ensures reply.Some? && old(selected).Some? && FindById(reply.value, old(selected).value.id).Some? ==>
        selected == FindById(reply.value, old(selected).value.id)
        && selected.value in orders && selected.value.id == old(selected).value.id
      ensures !(reply.Some? && old(selected).Some? && FindById(reply.value, old(selected).value.id).Some?) ==>
        selected == old(selected)
      ensures searchQuery == old(searchQuery) && updating == old(updating) && customMessage == old(customMessage)
    {
      FetchOrders(reply, selected);
    }

    /** updateStatus: sends the status with the notes, refetches and clears
        the typed message only on an OK response, and always ends the
        in-flight mark. */
    method UpdateStatus(orderId: int, status: string, message: Option<string>, outcome: Outcome,
                        refetch: Option<seq<OrderView>>)
      returns (sent: StatusRequest)
      modifies this
      ensures sent == StatusRequest(orderId, status, NotesFor(message, old(customMessage)))
      ensures updating.None?
      ensures outcome == Succeeded ==>
        customMessage == "" && !loading && orders == (if refetch.Some? then refetch.value else old(orders))
      ensures outcome == Succeeded ==>
        (refetch.Some? && old(selected).Some? && FindById(refetch.value, old(selected).value.id).Some? ==>
           selected == FindById(refetch.value, old(selected).value.id))
      ensures outcome == Succeeded ==>
        (!(refetch.Some? && old(selected).Some? && FindById(refetch.value, old(selected).value.id).Some?) ==>
           selected == old(selected))
      ensures searchQuery == old(searchQuery)
      ensures outcome != Succeeded ==>
        customMessage == old(customMessage) && orders == old(orders) && selected == old(selected)
        && loading == old(loading)
    {
      updating := Some(orderId);
      sent := StatusRequest(orderId, status, NotesFor(message, customMessage));
      if outcome == Succeeded {
        FetchOrders(refetch, selected);
        customMessage := "";
      }
      updating := None;
    }
  }

  function SampleOrder(status: string): OrderView {
    OrderView(1, None, Some("4"), status, None, 500, 0, [], None)
  }

  /** The stale poll, concretely: order 1 is open as PENDING, the kitchen
      marks it READY, a poll brings the new list, and the panel still says
      PENDING. */
  method StalePollKeepsOldStatus() returns (listed: string, shown: string)
    ensures listed == READY && shown == PENDING
  {
    var page := new AdminOrdersPage();
    page.FetchOrders(Some([SampleOrder(PENDING)]), None);
    page.Select(page.orders[0]);
    page.PollAsWritten(Some([SampleOrder(READY)]));
    listed := page.orders[0].status;
    shown := page.selected.value.status;
  }

  /** The same sequence with the intended poll shows READY. */
  method PollShowsNewStatus() returns (listed: string, shown: string)
    ensures listed == READY && shown == READY
  {
    var page := new AdminOrdersPage();
    page.FetchOrders(Some([SampleOrder(PENDING)]), None);
    page.Select(page.orders[0]);
    page.Poll(Some([SampleOrder(READY)]));
    assert FindById([SampleOrder(READY)], 1) == Some(SampleOrder(READY));
    listed := page.orders[0].status;
    shown := page.selected.value.status;
  }
}
