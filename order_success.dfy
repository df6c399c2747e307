/** The order confirmation page (app/order-success/page.tsx). On mount it
    looks up the order number stored at checkout, fetches the order once,
    re-fetches every 5 s and gives up polling after 30 s; it stops early on
    a 404 or once the order is far enough along. The first order received
    clears the cart and the checkout store, once. Timers and responses are
    discrete events here. */
module OrderSuccess {
  import opened Util

  /** The workflow statuses after which the order will not change in a way
      this page shows. */
  const DoneStatuses: seq<string> :=
    ["payment_confirmed", "easyparcel_order_created", "awb_generated", "email_sent"]

  /** The part of the order returned by the order lookup that decides polling. */
  datatype OrderData = OrderData(orderNumber: string, orderWorkflowStatus: string, awbNumber: Option<string>)

  /** How one fetch of the order ends. `Failed` is a fetch that threw or a
      body that was not JSON: the page swallows both. */
  datatype FetchOutcome =
    | HttpError(status: int)   // `!response.ok`
    | Received(data: OrderData)
    | Failed

  /** `doneStatuses.includes(data.orderWorkflowStatus) || data.awbNumber` */
  predicate StopsPolling(data: OrderData) {
    data.orderWorkflowStatus in DoneStatuses || Truthy(data.awbNumber)
  }

  /** Polling stops on exactly the four done statuses, or once an air
      waybill number is present, whatever the status. */
  lemma StopsPollingIff(data: OrderData)
    ensures StopsPolling(data) <==>
      || data.orderWorkflowStatus == "payment_confirmed"
      || data.orderWorkflowStatus == "easyparcel_order_created"
      || data.orderWorkflowStatus == "awb_generated"
      || data.orderWorkflowStatus == "email_sent"
      || (data.awbNumber.Some? && data.awbNumber.value != "")
  {
  }

  /** For example, an order still awaiting payment with no air waybill keeps
      the page polling. */
  lemma PendingPaymentKeepsPolling(orderNumber: string)
    ensures !StopsPolling(OrderData(orderNumber, "pending_payment", None))
  {
    assert "pending_payment" != "payment_confirmed";
  }

  class OrderPoller {
    var started: bool             // the mount effect has run
    var orderNumber: Option<string>
    var intervalActive: bool      // the 5 s interval is running
    var timeoutActive: bool       // the 30 s timeout is pending
    var order: Option<OrderData>
    var loading: bool
    var hasCleared: bool
    var cartClears: nat           // calls of clearCart() and clearCheckout()
    var fetchesIssued: nat
    var inFlight: nat

    ghost predicate Valid()
      reads this
    {
      // the cart is cleared at most once, and exactly when an order arrived
      && cartClears <= 1
      && (cartClears == 1 <==> hasCleared)
      && (hasCleared <==> order.Some?)
      // no timer runs before mount, and none without an order number
      && (!started ==> !intervalActive && !timeoutActive && fetchesIssued == 0)
      && (started && !Truthy(orderNumber) ==> !intervalActive && !timeoutActive && fetchesIssued == 0)
      && inFlight <= fetchesIssued
      // loading lasts until the first fetch has finished
      && (loading <==> (!started || (Truthy(orderNumber) && inFlight == fetchesIssued)))
    }

    constructor ()
      ensures Valid()
      ensures !started && loading && order.None? && fetchesIssued == 0
    {
      started, orderNumber := false, None;
      intervalActive, timeoutActive := false, false;
      order, loading := None, true;
      hasCleared, cartClears := false, 0;
      fetchesIssued, inFlight := 0, 0;
    }

    /** The mount effect, given `localStorage.getItem("lastOrderNumber")`.
        Without a number nothing is fetched and loading ends; otherwise the
        first fetch, the interval and the timeout all start. */
    method Start(stored: Option<string>) returns (fetched: bool)
      requires Valid() && !started
      modifies this
      ensures Valid() && started && orderNumber == stored
      ensures fetched <==> Truthy(stored)
      ensures !fetched ==> !loading && !intervalActive && !timeoutActive && fetchesIssued == 0
      ensures fetched ==> loading && intervalActive && timeoutActive && fetchesIssued == 1 && inFlight == 1
      ensures order == old(order) && cartClears == old(cartClears)
    {
      started, orderNumber := true, stored;
      if !Truthy(stored) {
        loading := false;
        fetched := false;
      } else {
        fetchesIssued, inFlight := 1, 1;
        intervalActive, timeoutActive := true, true;
        fetched := true;
      }
    }

    /** One tick of the 5 s interval; a cleared interval does not tick. */
    method IntervalTick() returns (fetched: bool)
      requires Valid()
      modifies this`fetchesIssued, this`inFlight, this`loading
      ensures Valid()
      ensures fetched == old(intervalActive)
      ensures fetchesIssued == old(fetchesIssued) + (if fetched then 1 else 0)
      ensures inFlight == old(inFlight) + (if fetched then 1 else 0)
      ensures loading == old(loading)
    {
      fetched := intervalActive;
      if fetched {
        fetchesIssued, inFlight := fetchesIssued + 1, inFlight + 1;
      }
    }

    /** The 30 s timeout: it stops the interval, so no poll follows it. */
    method TimeoutElapsed()
      requires Valid()
      modifies this`intervalActive, this`timeoutActive
      ensures Valid()
      ensures old(timeoutActive) ==> !intervalActive && !timeoutActive
      ensures !old(timeoutActive) ==> intervalActive == old(intervalActive) && !timeoutActive
    {
      if timeoutActive {
        intervalActive := false;
        timeoutActive := false;
      }
    }

    /** The end of one fetch, followed by the clear-once effect. A 404 stops
        both timers; another error status changes nothing but loading; a
        received order replaces the current one and stops both timers when
        `StopsPolling` holds. Loading ends in every case. */
    method FetchSettled(outcome: FetchOutcome)
      requires Valid() && inFlight > 0
      modifies this`inFlight, this`loading, this`order, this`intervalActive, this`timeoutActive,
        this`hasCleared, this`cartClears
      ensures Valid()
      ensures inFlight == old(inFlight) - 1 && !loading
      ensures outcome.Received? ==> order == Some(outcome.data)
      ensures !outcome.Received? ==> order == old(order)
      ensures var stop := (outcome.HttpError? && outcome.status == 404) || (outcome.Received? && StopsPolling(outcome.data));
        && (stop ==> !intervalActive && !timeoutActive)
        && (!stop ==> intervalActive == old(intervalActive) && timeoutActive == old(timeoutActive))
      ensures cartClears == (if old(cartClears) == 0 && outcome.Received? then 1 else old(cartClears))
    {
      inFlight := inFlight - 1;
      match outcome {
        case HttpError(status) =>
          if status == 404 {
            intervalActive, timeoutActive := false, false;
          }
        case Received(data) =>
          order := Some(data);
          if StopsPolling(data) {
            intervalActive, timeoutActive := false, false;
          }
        case Failed =>
      }
      loading := false;
      ClearOnceEffect();
    }

    /** The effect on `order`: the first time an order is present, clear the
        cart and the checkout store, and never again. */
    method ClearOnceEffect()
      requires cartClears <= 1 && (cartClears == 1 <==> hasCleared) && (hasCleared ==> order.Some?)
      modifies this`hasCleared, this`cartClears
      ensures cartClears <= 1 && (cartClears == 1 <==> hasCleared) && (hasCleared <==> order.Some?)
      ensures cartClears == (if !old(hasCleared) && order.Some? then old(cartClears) + 1 else old(cartClears))
    {
      if !hasCleared && order.Some? {
        cartClears := cartClears + 1;
        hasCleared := true;
      }
    }

    /** The effect's cleanup when the page goes away. */
    method Unmount()
      requires Valid()
      modifies this`intervalActive, this`timeoutActive
      ensures Valid() && !intervalActive && !timeoutActive
    {
      intervalActive, timeoutActive := false, false;
    }
  }
}
