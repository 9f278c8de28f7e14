/**
 * The delivery-method screen: two options, a selection that starts empty and
 * is overwritten by each click, and a confirm button gated on a selection.
 */
module DeliveryMethod {
  import opened Wrappers
  import opened Navigation

  datatype Method = Car | Drone

  datatype DeliveryOption = DeliveryOption(
    id: Method, name: string, timeEstimate: string, description: string,
    price: string, distance: string, note: Option<string>)

  /** The option cards, in display order. */
  function DeliveryOptions(): seq<DeliveryOption>
  {
    [ DeliveryOption(Car, "Car Delivery", "2–4 hours", "Standard courier delivery to your door.",
                     "$3.99", "Within 10 miles", None),
      DeliveryOption(Drone, "Drone Delivery", "Within 1 hour", "Fast, eco-friendly drone drop-off.",
                     "$9.99", "Within 2 miles", Some("Drone delivery may not be available in all locations.")) ]
  }

  /** There are exactly two options, Car then Drone, with distinct ids covering every method. */
  lemma OptionsTable(m: Method)
    ensures |DeliveryOptions()| == 2
    ensures DeliveryOptions()[0].id == Car && DeliveryOptions()[1].id == Drone
    ensures m == DeliveryOptions()[0].id || m == DeliveryOptions()[1].id
  {
  }

  /** Back goes to the medications step, however the screen was reached. */
  function BackTarget(): (o: Outcome)
    ensures o == Navigate(Medications)
  {
    Navigate(Route.Medications)
  }

  /** "Change address" goes to the address step. */
  function ChangeAddressTarget(): (o: Outcome)
    ensures o == Navigate(Address)
  {
    Navigate(Route.Address)
  }

  class DeliveryMethodScreen {
    var deliveryMethod: Option<Method>

    constructor ()
      ensures deliveryMethod == None
    {
      deliveryMethod := None;
    }

    /** Clicking a card selects that card's method, replacing any earlier choice. */
    method HandleSelectMethod(m: Method)
      modifies this`deliveryMethod
      ensures deliveryMethod == Some(m)
    {
      deliveryMethod := Some(m);
    }

    /** "Review & Confirm" is disabled while no method is chosen. */
    predicate ConfirmDisabled()
      reads this
    {
      deliveryMethod.None?
    }

    /** The card drawn as selected. */
    predicate Highlighted(option: DeliveryOption)
      reads this
    {
      deliveryMethod == Some(option.id)
    }

    method HandleContinue() returns (o: Outcome)
      ensures deliveryMethod.Some? ==> o == Navigate(Summary)
      ensures deliveryMethod.None? ==> o == NoOp
      ensures o == Navigate(Summary) <==> !ConfirmDisabled()
    {
      if deliveryMethod.Some? {
        o := Navigate(Summary);
      } else {
        o := NoOp;
      }
    }
  }

  /** After a selection exactly one card is highlighted: the one clicked. */
  lemma SelectionHighlightsOneCard(screen: DeliveryMethodScreen, m: Method)
    requires screen.deliveryMethod == Some(m)
    ensures forall i :: 0 <= i < |DeliveryOptions()| ==>
              (screen.Highlighted(DeliveryOptions()[i]) <==> DeliveryOptions()[i].id == m)
  {
  }
}
