/**
 * The order cards on the settings screen: a bar per tracking step, coloured
 * by comparing the bar's index with the order's step, and a footer that
 * depends on whether the order has reached its last step.
 */
module SettingsScreen {

  datatype BarColor = Green | Primary | Gray

  /** The colour of the bar at 0-based `index` for an order at `step`, branch by branch. */
  function ProgressColor(index: int, step: int): (c: BarColor)
    ensures c == Green <==> index < step
  {
    if index < step then Green
    else if index == step - 1 then Primary
    else Gray
  }

  /**
   * A bar is green exactly when its index is below the step, and gray
   * otherwise: the `index == step - 1` branch implies `index < step`, which
   * the first branch has already taken, so it is never reached.
   */
  lemma ProgressColorTwoWay(index: int, step: int)
    ensures ProgressColor(index, step) != Primary
    ensures ProgressColor(index, step) == Green <==> index < step
    ensures ProgressColor(index, step) == Gray <==> index >= step
  {
  }

  /** The bars of one card, one per tracking step. */
  function Bars(step: int, totalSteps: nat): (r: seq<BarColor>)
    ensures |r| == totalSteps
    ensures forall i :: 0 <= i < totalSteps ==> r[i] == ProgressColor(i, step)
  {
    seq(totalSteps, i requires 0 <= i => ProgressColor(i, step))
  }

  function CountGreen(bars: seq<BarColor>): nat
  {
    if bars == [] then 0
    else CountGreen(bars[..|bars| - 1]) + (if bars[|bars| - 1] == Green then 1 else 0)
  }

  /** The green bars are the first `step` ones, clamped to 0..totalSteps. */
  lemma {:induction false} GreenBars(step: int, totalSteps: nat)
    ensures CountGreen(Bars(step, totalSteps)) ==
              if step < 0 then 0 else if step > totalSteps then totalSteps else step
    ensures forall i :: 0 <= i < totalSteps ==> (Bars(step, totalSteps)[i] == Green <==> i < step)
  {
    if totalSteps > 0 {
      assert Bars(step, totalSteps)[..totalSteps - 1] == Bars(step, totalSteps - 1);
      GreenBars(step, totalSteps - 1);
    }
  }

  /** The fields of an order card that its logic reads. */
  datatype OrderCardProps = OrderCardProps(
    orderId: string, status: string, deliveryMethod: string, eta: string,
    step: int, totalSteps: nat)

  /** A card is completed at its last step; then every one of its bars is green. */
  predicate IsCompleted(order: OrderCardProps)
    ensures IsCompleted(order) ==> forall i :: 0 <= i < order.totalSteps ==> ProgressColor(i, order.step) == Green
  {
    order.step == order.totalSteps
  }

  /** The footer: "Completed" with a receipt button, or "step/totalSteps - status". */
  datatype Footer = CompletedWithReceipt | StepStatus(step: int, totalSteps: int, status: string)

  function FooterOf(order: OrderCardProps): (f: Footer)
    ensures f.CompletedWithReceipt? <==> order.step == order.totalSteps
    ensures f.StepStatus? ==> f == StepStatus(order.step, order.totalSteps, order.status)
  {
    if IsCompleted(order) then CompletedWithReceipt
    else StepStatus(order.step, order.totalSteps, order.status)
  }

  /** The active orders listed on the screen. */
  function SampleOrders(): seq<OrderCardProps>
  {
    [ OrderCardProps("Order #A12345", "Preparing at pharmacy", "Car", "3–4 hours", 1, 3),
      OrderCardProps("Order #B67890", "Courier on the way", "Car", "Between 18:00–19:00", 2, 3),
      OrderCardProps("Order #C33456", "Drone in Transit", "Drone", "15 minutes", 2, 3),
      OrderCardProps("Order #D99887", "Delivered", "Drone", "Delivered at 14:12", 3, 3) ]
  }

  /** Of the sample orders only #D99887, at step 3 of 3, is completed. */
  lemma OnlyD99887Completed()
    ensures forall i :: 0 <= i < |SampleOrders()| ==>
              (IsCompleted(SampleOrders()[i]) <==> SampleOrders()[i].orderId == "Order #D99887")
  {
  }
}
