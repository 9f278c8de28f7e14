/**
 * The medication-type screen: the prescription flow goes on to the address
 * step, the over-the-counter flow straight to the catalog.
 */
module MedicationType {
  import opened Navigation

  datatype FlowType = Prescription | Otc

  /** Choosing a type triggers exactly one navigation, to a different route per type. */
  function HandleSelectType(t: FlowType): (o: Outcome)
    ensures o.Navigate?
    ensures o.to == Address <==> t.Prescription?
    ensures o.to == Route.OtcCatalog <==> t.Otc?
  {
    match t
    case Prescription => Navigate(Route.Address)
    case Otc => Navigate(Route.OtcCatalog)
  }

  /** The over-the-counter flow skips the address step. */
  lemma OtcSkipsAddress()
    ensures HandleSelectType(Otc) != Navigate(Address)
  {
  }

  /** Back leads to the welcome screen, the same place as Home. */
  function BackTarget(): (o: Outcome)
    ensures o == Home()
  {
    Navigate(Route.Welcome)
  }
}
