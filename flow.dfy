/**
 * The order in which the wizard's steps follow each other in the two flows,
 * as the screens' own forward actions wire them, and where each screen's
 * fixed Back and side links lead relative to that order.
 */
module Flow {
  import opened Wrappers
  import opened Navigation
  import MT = MedicationType
  import Addr = Address
  import Ins = Insurance
  import Meds = Medications
  import Otc = OtcCatalog
  import DM = DeliveryMethod
  import Sum = Summary

  /**
   * The steps of each flow, from the medication-type choice to the summary:
   * prescription goes through address, insurance and the prescribed
   * medications, over-the-counter through the catalog.
   */
  function FlowSteps(t: MT.FlowType): seq<Route>
  {
    match t
    case Prescription =>
      [Route.MedicationType, Route.Address, Route.Insurance, Route.Medications, Route.Delivery, Route.Summary]
    case Otc =>
      [Route.MedicationType, Route.OtcCatalog, Route.Delivery, Route.Summary]
  }

  /** Where the welcome screen's Start button leads. */
  const Start: Outcome := Navigate(Route.Address)

  /** The step just before the first occurrence of `r` after the head, if any. */
  function Predecessor(steps: seq<Route>, r: Route): (p: Option<Route>)
    ensures p.Some? ==> exists i :: 1 <= i < |steps| && steps[i] == r && steps[i - 1] == p.value
    ensures p.None? ==> forall i :: 1 <= i < |steps| ==> steps[i] != r
  {
    if |steps| < 2 then None
    else if steps[1] == r then Some(steps[0])
    else
      var p := Predecessor(steps[1..], r);
      if p.Some? then
        var i :| 1 <= i < |steps[1..]| && steps[1..][i] == r && steps[1..][i - 1] == p.value;
        assert steps[i + 1] == r && steps[i] == p.value;
        p
      else
        assert forall i :: 2 <= i < |steps| ==> steps[i] == steps[1..][i - 1];
        p
  }

  /**
   * Both flows start at the medication-type choice, whose selection picks the
   * second step, and end with delivery then summary; no step is visited twice.
   */
  lemma FlowShape(t: MT.FlowType)
    ensures FlowSteps(t)[0] == Route.MedicationType
    ensures MT.HandleSelectType(t) == Navigate(FlowSteps(t)[1])
    ensures FlowSteps(t)[|FlowSteps(t)| - 2..] == [Route.Delivery, Route.Summary]
    ensures forall i, j :: 0 <= i < j < |FlowSteps(t)| ==> FlowSteps(t)[i] != FlowSteps(t)[j]
    ensures Route.Welcome !in FlowSteps(t)
  {
  }

  /** The address step with a built-in suggestion clicked: Continue is enabled and leads on. */
  method AddressStep() returns (o: Outcome, enabled: bool)
    ensures o == Navigate(Route.Insurance) && enabled
  {
    var address := new Addr.AddressScreen();
    address.HandleSuggestionClick(Addr.Suggestions[0]);
    enabled := !address.ContinueDisabled();
    o := address.HandleContinue();
  }

  /** The insurance step after a scan that verifies: Continue is enabled and leads on. */
  method InsuranceStep() returns (o: Outcome, enabled: bool)
    ensures o == Navigate(Route.Medications) && enabled
  {
    var insurance := new Ins.InsuranceScreen();
    insurance.HandleScanCard();
    insurance.CompleteVerification(true);
    enabled := insurance.verificationStatus == Ins.Success;
    o := insurance.HandleContinue();
  }

  /** The prescribed-medications step with its initial selection: Continue is enabled and leads on. */
  method MedicationsStep() returns (o: Outcome, enabled: bool)
    ensures o == Navigate(Route.Delivery) && enabled
  {
    var medications := new Meds.MedicationsScreen();
    enabled := !medications.ContinueDisabled();
    o := medications.HandleContinue();
  }

  /** The delivery step with method `m` chosen: "Review & Confirm" is enabled and leads on. */
  method DeliveryStep(m: DM.Method) returns (o: Outcome, enabled: bool)
    ensures o == Navigate(Route.Summary) && enabled
  {
    var delivery := new DM.DeliveryMethodScreen();
    delivery.HandleSelectMethod(m);
    enabled := !delivery.ConfirmDisabled();
    o := delivery.HandleContinue();
  }

  /**
   * A prescription order driven through the screens themselves: each step's
   * Continue is enabled when pressed, and the routes it navigates to are the
   * prescription flow's steps in order.
   */
  method PrescriptionJourney() returns (visited: seq<Route>, allEnabled: bool)
    ensures visited == FlowSteps(MT.Prescription)
    ensures allEnabled
  {
    visited := [Route.MedicationType];
    var o := MT.HandleSelectType(MT.Prescription);
    visited := visited + [o.to];
    var enabled;
    o, allEnabled := AddressStep();
    visited := visited + [o.to];
    o, enabled := InsuranceStep();
    allEnabled := allEnabled && enabled;
    visited := visited + [o.to];
    o, enabled := MedicationsStep();
    allEnabled := allEnabled && enabled;
    visited := visited + [o.to];
    o, enabled := DeliveryStep(DM.Car);
    allEnabled := allEnabled && enabled;
    visited := visited + [o.to];
  }

  /**
   * An over-the-counter order driven through the screens: the catalog run of
   * two paracetamol packs, then a drone delivery; the routes are the
   * over-the-counter flow's steps in order.
   */
  method OtcJourney() returns (visited: seq<Route>, allEnabled: bool)
    ensures visited == FlowSteps(MT.Otc)
    ensures allEnabled
  {
    visited := [Route.MedicationType];
    var o := MT.HandleSelectType(MT.Otc);
    visited := visited + [o.to];

    var count, enabled;
    count, o := Otc.ParacetamolOrder();
    allEnabled := count > 0;
    visited := visited + [o.to];
    o, enabled := DeliveryStep(DM.Drone);
    allEnabled := allEnabled && enabled;
    visited := visited + [o.to];
  }

  /** Back from the medication-type choice, the first step of both flows, leaves the flow for home. */
  lemma MedicationTypeBackLeavesFlow(t: MT.FlowType)
    ensures MT.BackTarget() == Home()
    ensures Predecessor(FlowSteps(t), Route.MedicationType) == None
    ensures Home().to !in FlowSteps(t)
  {
  }

  /**
   * Back from the address step undoes the welcome screen's Start, which enters
   * the prescription flow at the address step; it does not return to the
   * medication-type choice that precedes the address in that flow.
   */
  lemma AddressBackUndoesStart()
    ensures Start == Navigate(Route.Address)
    ensures Addr.BackTarget() == Home() && Home().to == Route.Welcome
    ensures Predecessor(FlowSteps(MT.Prescription), Route.Address) == Some(Route.MedicationType)
    ensures Addr.BackTarget().to != Route.MedicationType
  {
  }

  /** Back from the catalog leads to the step before it in the over-the-counter flow. */
  lemma CatalogBackIsPredecessor()
    ensures Predecessor(FlowSteps(MT.Otc), Route.OtcCatalog) == Some(Otc.BackTarget().to)
  {
  }

  /**
   * The delivery screen's Back, as written, leads to the step before delivery
   * in the prescription flow only; on the over-the-counter flow it leads to
   * the prescribed-medications step, which that flow never visits.
   */
  lemma DeliveryBackAsWritten()
    ensures Predecessor(FlowSteps(MT.Prescription), Route.Delivery) == Some(DM.BackTarget().to)
    ensures Predecessor(FlowSteps(MT.Otc), Route.Delivery) == Some(Route.OtcCatalog)
    ensures DM.BackTarget().to !in FlowSteps(MT.Otc)
  {
  }

  /** Back from the delivery screen, resolved by the flow the order is in. */
  function DeliveryBack(t: MT.FlowType): (o: Outcome)
    ensures o.Navigate?
    ensures t.Prescription? ==> o == DM.BackTarget()
  {
    match t
    case Prescription => Navigate(Route.Medications)
    case Otc => Navigate(Route.OtcCatalog)
  }

  /** In either flow, the flow-resolved Back leads to the step before delivery. */
  lemma DeliveryBackIsPredecessor(t: MT.FlowType)
    ensures Predecessor(FlowSteps(t), Route.Delivery) == Some(DeliveryBack(t).to)
    ensures DeliveryBack(t).to in FlowSteps(t)
  {
    match t
    case Prescription => DeliveryBackAsWritten();
    case Otc => DeliveryBackAsWritten();
  }

  /** "Change address" on the delivery screen leads to a step of the prescription flow only. */
  lemma ChangeAddressOnlyPrescription()
    ensures DM.ChangeAddressTarget().to in FlowSteps(MT.Prescription)
    ensures DM.ChangeAddressTarget().to !in FlowSteps(MT.Otc)
  {
  }

  /**
   * Every edit link on the summary leads back to an earlier step of the
   * prescription flow; of them, only the delivery link is on the
   * over-the-counter flow.
   */
  lemma EditLeadsBack(section: string)
    requires Sum.EditTarget(section).Navigate?
    ensures Sum.EditTarget(section).to in FlowSteps(MT.Prescription)
    ensures Sum.EditTarget(section).to != Route.Summary
    ensures Sum.EditTarget(section).to in FlowSteps(MT.Otc) <==> section == "delivery"
  {
  }
}
