/**
 * The chef's order board: changing an order's status from the modal
 * (`handleStatusUpdate`) and the badge colour of each status (`getStatusBgColor`).
 */
module ChefPage {
  import opened Wrappers
  import opened JsText
  import OrderSchema

  /** An order row as the board holds it (meal lines, QR code and dates are not modelled). */
  datatype OrderRow = OrderRow(id: string, client: string, status: string, refusedReason: Option<string>)


  /** The body of `PATCH /orders/:id/status`; `refusedReason: None` is the `null` sent. */
  datatype StatusPatch = StatusPatch(orderId: string, status: string, refusedReason: Option<string>)

  /** What `handleStatusUpdate` decides before it touches any state. */
  datatype StatusGate = NoSelection | ReasonMissing | Patch(body: StatusPatch)

  /** `!refusedReason.trim()`: the reason is empty or all white space. */
  predicate Blank(s: string): (b: bool)
    ensures b <==> forall i :: 0 <= i < |s| ==> IsSpace(s[i])
  {
    Trim(s) == ""
  }

  function Gate(selected: Option<OrderRow>, status: string, reason: string): (g: StatusGate)
    ensures g.NoSelection? <==> selected.None?
    ensures g.ReasonMissing? <==>
      selected.Some? && status == OrderSchema.Refused && forall i :: 0 <= i < |reason| ==> IsSpace(reason[i])
    ensures g.Patch? ==>
      g.body == StatusPatch(selected.value.id, status, if status == OrderSchema.Refused then Some(reason) else None)
    ensures g.Patch? && status == OrderSchema.Refused ==> exists i :: 0 <= i < |reason| && !IsSpace(reason[i])
  {
    if selected.None? then NoSelection
    else if status == OrderSchema.Refused && Blank(reason) then ReasonMissing
    else Patch(StatusPatch(selected.value.id, status, if status == OrderSchema.Refused then Some(reason) else None))
  }

  /** How the PATCH ended: the `orders` field of the response body, or a thrown error. */
  datatype PatchReply = PatchOk(orders: seq<OrderRow>) | PatchFailed

  /** How `handleStatusUpdate` ended. */
  datatype UpdateOutcome =
    | Ignored            // no order selected
    | Refusal            // the refusal toast: no reason given
    | Updated(sent: StatusPatch)
    | Rejected(sent: StatusPatch)  // the catch block, whose `toa(...)` call itself throws

  /** `getStatusBgColor` */
  function StatusColor(status: string): (c: string)
    ensures status == "pending" ==> c == "bg-yellow-500"
    ensures status == "preparing" ==> c == "bg-blue-500"
    ensures status == "completed" ==> c == "bg-green-500"
    ensures status == "refused" ==> c == "bg-red-500"
    ensures status !in {"pending", "preparing", "completed", "refused"} ==> c == "bg-gray-500"
  {
    match status
    case "pending" => "bg-yellow-500"
    case "preparing" => "bg-blue-500"
    case "completed" => "bg-green-500"
    case "refused" => "bg-red-500"
    case _ => "bg-gray-500"
  }

  /** Each status the order schema allows gets its own colour, and none of them the fallback grey. */
  lemma StatusColorsDistinct(s: string, t: string)
    requires s in OrderSchema.Statuses && t in OrderSchema.Statuses
    ensures StatusColor(s) != "bg-gray-500"
    ensures StatusColor(s) == StatusColor(t) <==> s == t
  {
  }

  /** The board's state. */
  class ChefBoard {
    var selectedStatus: string
    var refusedReason: string
    var orders: seq<OrderRow>
    var selectedOrder: Option<OrderRow>
    var isLoading: bool
    var modalOpen: bool

    /** The initial `useState` values. */
    constructor ()
      ensures selectedStatus == "" && refusedReason == "" && orders == []
      ensures selectedOrder.None? && !isLoading && !modalOpen
    {
      selectedStatus, refusedReason, orders := "", "", [];
      selectedOrder, isLoading, modalOpen := None, false, false;
    }

    /** `handleSelectOrder`: remember the order and open the modal. */
    method SelectOrder(order: OrderRow)
      modifies this
      ensures selectedOrder == Some(order) && modalOpen
      ensures selectedStatus == old(selectedStatus) && refusedReason == old(refusedReason)
      ensures orders == old(orders) && isLoading == old(isLoading)
    {
      selectedOrder := Some(order);
      modalOpen := true;
    }

    /** The status drop-down and the reason text area. */
    method ChooseStatus(status: string, reason: string)
      modifies this
      ensures selectedStatus == status && refusedReason == reason
      ensures selectedOrder == old(selectedOrder) && modalOpen == old(modalOpen)
      ensures orders == old(orders) && isLoading == old(isLoading)
    {
      selectedStatus, refusedReason := status, reason;
    }

    /**
     * `handleStatusUpdate`: without a selected order do nothing; refuse a refusal with a
     * blank reason; otherwise PATCH the status (with the reason only for a refusal), and on
     * success take the returned orders and reset the modal. `reply` is how the PATCH ends.
     */
    method HandleStatusUpdate(reply: PatchReply) returns (outcome: UpdateOutcome)
      modifies this
      ensures var g := Gate(old(selectedOrder), old(selectedStatus), old(refusedReason));
        && (g.NoSelection? ==> outcome == Ignored)
        && (g.ReasonMissing? ==> outcome == Refusal)
        && (g.Patch? ==> outcome == if reply.PatchOk? then Updated(g.body) else Rejected(g.body))
      ensures outcome.Updated? ==>
        orders == reply.orders && selectedOrder.None? && !modalOpen &&
        selectedStatus == "" && refusedReason == "" && !isLoading
      ensures outcome.Rejected? ==>
        orders == old(orders) && selectedOrder == old(selectedOrder) && modalOpen == old(modalOpen) &&
        selectedStatus == old(selectedStatus) && refusedReason == old(refusedReason) && !isLoading
      ensures outcome.Ignored? || outcome.Refusal? ==>
        orders == old(orders) && selectedOrder == old(selectedOrder) && modalOpen == old(modalOpen) &&
        selectedStatus == old(selectedStatus) && refusedReason == old(refusedReason) &&
        isLoading == old(isLoading)
    {
      var gate := Gate(selectedOrder, selectedStatus, refusedReason);
      if gate.NoSelection? {
        return Ignored;
      }
      if gate.ReasonMissing? {
        return Refusal;
      }
      isLoading := true;
      var body := gate.body;
      if reply.PatchOk? {
        orders := reply.orders;
        selectedOrder := None;
        modalOpen := false;
        selectedStatus := "";
        refusedReason := "";
        outcome := Updated(body);
      } else {
        outcome := Rejected(body);
      }
      isLoading := false;
    }
  }
}
