/** The customer's order-tracking page: the four-stage stepper derived from
    an order's status, the status badge style, and the page state (the
    orders shown, the loading flag, the one expanded order). */
module MyOrdersPage {
  import opened Wrappers
  import opened Schema

  datatype Stage = Stage(key: string, caption: string, color: string)

  const STAGES: seq<Stage> := [
    Stage(PENDING, "Ordered", "orange"),
    Stage(PREPARING, "Preparing", "blue"),
    Stage(READY, "Ready", "purple"),
    Stage(COMPLETED, "Enjoyed", "emerald")
  ]

  /** getStatusIndex (Array.prototype.findIndex on the stage keys). */
  function StatusIndex(status: string): (k: int)
    ensures -1 <= k < |STAGES|
    ensures k >= 0 ==> STAGES[k].key == status
    ensures k == -1 <==> forall j | 0 <= j < |STAGES| :: STAGES[j].key != status
  {
    if status == PENDING then 0
    else if status == PREPARING then 1
    else if status == READY then 2
    else if status == COMPLETED then 3
    else -1
  }

  lemma CancelledHasNoStage()
    ensures StatusIndex(CANCELLED) == -1
  {
  }

  /** How the stepper draws one stage. */
  datatype StageState = Completed | Active | Upcoming

  function StageStateAt(stage: int, current: int): (s: StageState)
    ensures s == Completed <==> stage < current
    ensures s == Active <==> stage == current
  {
    if stage < current then Completed else if stage == current then Active else Upcoming
  }

  /** Along the stepper the completed stages come first, then the one active
      stage, then the upcoming ones; an unknown status shows none of the
      first two. */
  lemma StepperShape(status: string)
    ensures StatusIndex(status) >= 0 ==>
      forall j | 0 <= j < |STAGES| ::
        (StageStateAt(j, StatusIndex(status)) == Active <==> STAGES[j].key == status)
    ensures StatusIndex(status) == -1 ==>
      forall j | 0 <= j < |STAGES| :: StageStateAt(j, -1) == Upcoming
    ensures forall i, j | 0 <= i < j < |STAGES| ::
      StageStateAt(j, StatusIndex(status)) == Completed ==> StageStateAt(i, StatusIndex(status)) == Completed
  {
  }

  /** Width of the progress line, in percent. */
  function ProgressPercent(current: int): (p: real)
    requires -1 <= current < |STAGES|
    ensures 0.0 <= p <= 100.0
    ensures current <= 0 ==> p == 0.0
    ensures current == |STAGES| - 1 ==> p == 100.0
  {
    if current == -1 then 0.0 else (current as real / (|STAGES| - 1) as real) * 100.0
  }

  /** The line grows with the status. */
  lemma ProgressMonotonic(a: string, b: string)
    requires StatusIndex(a) <= StatusIndex(b)
    ensures ProgressPercent(StatusIndex(a)) <= ProgressPercent(StatusIndex(b))
  {
  }

  /** Cancelled orders get no stepper. Every status with a stage gets one,
      so only a status outside the pipeline can hide it. */
  predicate ShowsStepper(status: string)
    ensures StatusIndex(status) >= 0 ==> ShowsStepper(status)
    ensures status == CANCELLED ==> !ShowsStepper(status)
  {
    status != CANCELLED
  }

  const PENDING_STYLE := "bg-orange-500/10 text-orange-500 border-orange-500/20"

  /** getStatusStyles: one style per known status, PENDING's for the rest. */
  function StatusStyle(status: string): (style: string)
    ensures status !in {COMPLETED, CANCELLED, READY, PREPARING} ==> style == PENDING_STYLE
    ensures status in {COMPLETED, CANCELLED, READY, PREPARING} ==> style != PENDING_STYLE
  {
    if status == COMPLETED then "bg-emerald-500/10 text-emerald-500 border-emerald-500/20"
    else if status == CANCELLED then "bg-red-500/10 text-red-500 border-red-500/20"
    else if status == READY then "bg-purple-500/10 text-purple-500 border-purple-500/20"
    else if status == PREPARING then "bg-blue-500/10 text-blue-500 border-blue-500/20"
    else PENDING_STYLE
  }

  class MyOrdersPage {
    var orders: seq<OrderView>
    var loading: bool
    /** Id of the one order whose details are open, if any. */
    var expanded: Option<int>

    constructor ()
      ensures orders == [] && loading && expanded.None?
      ensures ShowsSpinner()
    {
      orders := [];
      loading := true;
      expanded := None;
    }

    /** The full-page spinner shows while loading with nothing to show yet;
        it never hides a list that has arrived. */
    function ShowsSpinner(): bool
      reads this
      ensures ShowsSpinner() ==> |orders| == 0
    {
      loading && orders == []
    }

    /** A click on an order's header: the open order closes, any other
        becomes the only open one. */
    method ToggleExpand(id: int)
      modifies this
      ensures old(expanded) == Some(id) ==> expanded.None?
      ensures old(expanded) != Some(id) ==> expanded == Some(id)
      ensures orders == old(orders) && loading == old(loading)
    {
      expanded := if expanded == Some(id) then None else Some(id);
    }

    /** fetchOrders for the signed-in user. Without a user nothing happens
        (the spinner stays); otherwise the reply, when it arrives, replaces
        the list, and loading ends whether or not it arrived. */
    method FetchOrders(userId: Option<int>, reply: Option<seq<OrderView>>)
      modifies this
      ensures userId.None? ==> orders == old(orders) && loading == old(loading)
      ensures userId.Some? ==> !loading && orders == (if reply.Some? then reply.value else old(orders))
      ensures userId.Some? ==> !ShowsSpinner()
      ensures expanded == old(expanded)
    {
      if userId.None? {
        return;
      }
      if reply.Some? {
        orders := reply.value;
      }
      loading := false;
    }
  }
}
