/**
  The order-details view: which of the four escrow actions the client offers
  for an order, given its status label and the viewer's two role flags, and
  the four-step progress timeline it draws.

  The view receives the order's status as the label produced by
  `OrderStatus.StatusText`, so besides the five status names it may see
  'Unknown'; the rules below are stated for any label.
 */
module OrderDetails {
  import opened Wrappers
  import opened OrderStatus

  // ---------------------------------------------------------------------
  // Action gating
  // ---------------------------------------------------------------------

  datatype Action = ConfirmShipment | ConfirmDelivery | CancelOrder | SpecifyDeliveryDate

  /**
    What the actions area shows: a notice for a cancelled or a completed
    order, or a row of buttons, each present or absent.
   */
  datatype ActionPanel =
    | CancelledNotice
    | CompletedNotice
    | Buttons(confirmShipment: bool, confirmDelivery: bool, cancel: bool, specifyDeliveryDate: bool)

  /** The actions a panel offers: none on a notice, the present buttons otherwise. */
  function Offered(panel: ActionPanel): set<Action>
  {
    match panel
    case CancelledNotice => {}
    case CompletedNotice => {}
    case Buttons(ship, deliver, cancel, specify) =>
      (if ship then {ConfirmShipment} else {})
      + (if deliver then {ConfirmDelivery} else {})
      + (if cancel then {CancelOrder} else {})
      + (if specify then {SpecifyDeliveryDate} else {})
  }

  /**
    `getActionButtons`: a cancelled or completed order gets its notice;
    otherwise each button appears when the viewer has the role its action
    needs and the order is in a state it is offered from.
   */
  function ActionButtons(status: string, isConsumer: bool, isProducer: bool): (panel: ActionPanel)
    ensures panel == CancelledNotice <==> status == Name(Cancelled)
    ensures panel == CompletedNotice <==> status == Name(Completed)
    ensures ConfirmShipment in Offered(panel) <==> isProducer && status == Name(Created)
    ensures ConfirmDelivery in Offered(panel) <==> isConsumer && status == Name(Shipped)
    ensures CancelOrder in Offered(panel) <==> isConsumer && status == Name(Created)
    ensures SpecifyDeliveryDate in Offered(panel) <==>
              isConsumer && (status == Name(Created) || status == Name(Shipped))
  {
    if status == "Cancelled" then CancelledNotice
    else if status == "Completed" then CompletedNotice
    else
      Buttons(
        confirmShipment := isProducer && status == "Created",
        confirmDelivery := isConsumer && status == "Shipped",
        cancel := isConsumer && status == "Created",
        specifyDeliveryDate := isConsumer && (status == "Created" || status == "Shipped"))
  }

  /** The actions offered to a viewer on an order whose label is `status`. */
  function OfferedActions(status: string, isConsumer: bool, isProducer: bool): set<Action>
  {
    Offered(ActionButtons(status, isConsumer, isProducer))
  }

  /**
    The gating table the view encodes, regrouped per action rather than per
    state: which role each action needs and from which states it is offered.
   */
  predicate GatingRule(a: Action, s: Status, isConsumer: bool, isProducer: bool)
  {
    match a
    case ConfirmShipment => isProducer && s == Created
    case ConfirmDelivery => isConsumer && s == Shipped
    case CancelOrder => isConsumer && s == Created
    case SpecifyDeliveryDate => isConsumer && s in {Created, Shipped}
  }

  /**
    For each of the five statuses, the view offers an action exactly when
    the per-action table allows it for that viewer in that state.
   */
  lemma OfferedIffGatingRule(s: Status, isConsumer: bool, isProducer: bool, a: Action)
    ensures a in OfferedActions(Name(s), isConsumer, isProducer) <==> GatingRule(a, s, isConsumer, isProducer)
  {
    NameInjective(s, Created);
    NameInjective(s, Shipped);
  }

  /** A cancelled or completed order offers nothing, whatever the viewer's roles. */
  lemma TerminalOffersNothing(s: Status, isConsumer: bool, isProducer: bool)
    requires s == Cancelled || s == Completed
    ensures OfferedActions(Name(s), isConsumer, isProducer) == {}
  {
  }

  /** A delivered order offers no action either, though it shows buttons rather than a notice. */
  lemma DeliveredOffersNothing(isConsumer: bool, isProducer: bool)
    ensures ActionButtons(Name(Delivered), isConsumer, isProducer).Buttons?
    ensures OfferedActions(Name(Delivered), isConsumer, isProducer) == {}
  {
    var panel := ActionButtons(Name(Delivered), isConsumer, isProducer);
    assert panel == Buttons(false, false, false, false);
  }

  /** A viewer who is neither the consumer nor the producer is offered nothing. */
  lemma NoRoleNoAction(status: string)
    ensures OfferedActions(status, false, false) == {}
  {
    var panel := ActionButtons(status, false, false);
    assert panel.Buttons? ==> panel == Buttons(false, false, false, false);
  }

  /** A label that names no status ('Unknown') offers nothing. */
  lemma UnknownLabelNoAction(status: string, isConsumer: bool, isProducer: bool)
    requires ParseLabel(status) == None
    ensures OfferedActions(status, isConsumer, isProducer) == {}
  {
    var panel := ActionButtons(status, isConsumer, isProducer);
    assert panel.Buttons? ==> panel == Buttons(false, false, false, false);
  }

  /** Cancelling is offered only before shipment: from Created, and to the consumer. */
  lemma CancelOnlyBeforeShipment(s: Status, isConsumer: bool, isProducer: bool)
    requires CancelOrder in OfferedActions(Name(s), isConsumer, isProducer)
    ensures s == Created && isConsumer
  {
    NameInjective(s, Created);
  }

  /** The producer's and the consumer's confirmations are never offered together. */
  lemma ConfirmationsExclusive(status: string, isConsumer: bool, isProducer: bool)
    ensures !(ConfirmShipment in OfferedActions(status, isConsumer, isProducer)
              && ConfirmDelivery in OfferedActions(status, isConsumer, isProducer))
  {
  }

  /**
    Every action offered to the producer alone is the shipment confirmation,
    and every action offered to the consumer alone is one of the other three.
   */
  lemma ActionsFollowRole(status: string, a: Action)
    ensures a in OfferedActions(status, false, true) ==> a == ConfirmShipment
    ensures a in OfferedActions(status, true, false) ==> a != ConfirmShipment
  {
  }

  // ---------------------------------------------------------------------
  // Timeline
  // ---------------------------------------------------------------------

  /** One step of the timeline: its name, whether it is reached, and the text under it. */
  datatype Step = Step(name: string, completed: bool, time: string)

  const Pending: string := "Pending"
  const Confirmed: string := "Confirmed"

  /** The step names, in order. */
  const StepNames: seq<string> := ["Created", "Shipped", "Delivered", "Completed"]

  /**
    `getOrderTimeline`: the four steps Created, Shipped, Delivered,
    Completed. Created is always reached and shows the purchase time; each
    later step is reached when the order's status is that step or a later
    one on the success path. A step that is reached never follows one that
    is not.
   */
  function Timeline(status: string, purchaseTime: string, deliveryTime: string): (steps: seq<Step>)
    ensures |steps| == |StepNames|
    ensures forall i :: 0 <= i < |steps| ==> steps[i].name == StepNames[i]
    ensures steps[0].completed && steps[0].time == purchaseTime
    ensures forall i, j :: 0 <= i <= j < |steps| && steps[j].completed ==> steps[i].completed
  {
    var deliveredOrLater := status in ["Delivered", "Completed"];
    [
      Step("Created", true, purchaseTime),
      Step("Shipped", status in ["Shipped", "Delivered", "Completed"],
           if status == "Created" then Pending else Confirmed),
      Step("Delivered", deliveredOrLater,
           if !deliveredOrLater then Pending else deliveryTime),
      Step("Completed", status == "Completed",
           if status != "Completed" then Pending else "Completed")
    ]
  }

  /**
    How far along the success path a status is, counted in timeline steps:
    a cancelled order never got past Created.
   */
  function Progress(s: Status): (n: nat)
    ensures 1 <= n <= |StepNames|
  {
    match s
    case Created => 1
    case Shipped => 2
    case Delivered => 3
    case Completed => 4
    case Cancelled => 1
  }

  /** The reached steps are exactly the first `Progress(s)` ones. */
  lemma TimelineReachesProgress(s: Status, purchaseTime: string, deliveryTime: string)
    ensures forall i :: 0 <= i < |StepNames| ==>
              (Timeline(Name(s), purchaseTime, deliveryTime)[i].completed <==> i < Progress(s))
  {
  }

  /** A label that names no status reaches only the Created step. */
  lemma TimelineUnknownLabel(status: string, purchaseTime: string, deliveryTime: string)
    requires ParseLabel(status) == None
    ensures forall i :: 0 <= i < |StepNames| ==>
              (Timeline(status, purchaseTime, deliveryTime)[i].completed <==> i == 0)
  {
  }

  /**
    The Delivered and Completed steps read 'Pending' until reached, then
    the delivery time and 'Completed'. The Shipped step reads 'Pending' for
    a Created order and 'Confirmed' for every other label, so a cancelled
    order shows its unreached Shipped step as 'Confirmed'.
   */
  lemma TimelineTimes(status: string, purchaseTime: string, deliveryTime: string)
    requires deliveryTime != Pending
    ensures var steps := Timeline(status, purchaseTime, deliveryTime);
      && (steps[1].time == Pending <==> status == Name(Created))
      && (status != Name(Created) ==> steps[1].time == Confirmed)
      && (steps[2].time == Pending <==> !steps[2].completed)
      && (steps[2].completed ==> steps[2].time == deliveryTime)
      && (steps[3].time == Pending <==> !steps[3].completed)
      && (steps[3].completed ==> steps[3].time == "Completed")
      && (status == Name(Cancelled) ==> !steps[1].completed && steps[1].time == Confirmed)
  {
  }

  /**
    Going forward along the success path never un-reaches a step: every step
    reached at an earlier status is reached at a later one.
   */
  lemma TimelineMonotoneInStatus(s: Status, t: Status, i: nat, purchaseTime: string, deliveryTime: string)
    requires s != Cancelled && t != Cancelled && Code(s) <= Code(t) && i < |StepNames|
    requires Timeline(Name(s), purchaseTime, deliveryTime)[i].completed
    ensures Timeline(Name(t), purchaseTime, deliveryTime)[i].completed
  {
    TimelineReachesProgress(s, purchaseTime, deliveryTime);
    TimelineReachesProgress(t, purchaseTime, deliveryTime);
  }
}
