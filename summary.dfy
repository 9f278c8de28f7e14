/**
 * The order-summary screen: edit links back to earlier steps, a confirm
 * button that flips the screen to its success view, and a way home.
 */
module Summary {
  import opened Navigation

  /** The route an edit link leads to; an unknown section causes no navigation. */
  function EditTarget(section: string): (o: Outcome)
    ensures section == "address" ==> o == Navigate(Address)
    ensures section == "medications" ==> o == Navigate(Medications)
    ensures section == "delivery" ==> o == Navigate(Delivery)
    ensures section !in {"address", "medications", "delivery"} ==> o == NoOp
    ensures o.NoOp? || o.Navigate?
  {
    if section == "address" then Navigate(Route.Address)
    else if section == "medications" then Navigate(Route.Medications)
    else if section == "delivery" then Navigate(Route.Delivery)
    else NoOp
  }

  class SummaryScreen {
    var orderPlaced: bool

    constructor ()
      ensures !orderPlaced
    {
      orderPlaced := false;
    }

    /** Confirming places the order; confirming again changes nothing. */
    method HandleConfirmOrder()
      modifies this`orderPlaced
      ensures orderPlaced
      ensures old(orderPlaced) ==> unchanged(this)
    {
      orderPlaced := true;
    }

    method HandleEdit(section: string) returns (o: Outcome)
      ensures o == EditTarget(section)
    {
      o := EditTarget(section);
    }

    /** "Back to Home" on the success view. */
    method HandleOrderAgain() returns (o: Outcome)
      ensures o == Home()
    {
      o := Home();
    }

    /** The review view is shown until the order is placed, the success view afterwards. */
    predicate ShowsReview()
      reads this
    {
      !orderPlaced
    }
  }

  /** The three sections lead to three different earlier steps. */
  lemma EditTargetsDistinct(a: string, b: string)
    requires EditTarget(a).Navigate? && EditTarget(b).Navigate?
    requires a != b
    ensures EditTarget(a) != EditTarget(b)
  {
  }
}
