/**
 * The over-the-counter catalog: a list of products, each with a chosen pack
 * size and a quantity counter, and a running count of items added to the
 * cart. Only the count is kept, not the items.
 */
module OtcCatalog {
  import opened Wrappers
  import opened Navigation

  /** A pack size on offer; prices are kept in integer cents. */
  datatype ProductSize = ProductSize(sizeLabel: string, priceCents: nat)

  datatype Product = Product(
    id: int, name: string, sizes: seq<ProductSize>,
    selectedSize: Option<ProductSize>, quantity: int)

  const SelectSizeFirst: string := "Please select a size first"
  const SelectAtLeastOne: string := "Please select at least one item"
  const AddToCartFirst: string := "Please add at least one item to your cart"

  /** A catalog entry as first shown: no size chosen, quantity zero. */
  function Entry(id: int, name: string, sizes: seq<ProductSize>): Product
  {
    Product(id, name, sizes, None, 0)
  }

  function InitialProducts(): seq<Product>
  {
    [ Entry(1, "Paracetamol Tablets",
        [ProductSize("10 tablets", 399), ProductSize("20 tablets", 699), ProductSize("30 tablets", 999)]),
      Entry(2, "Ibuprofen 400mg",
        [ProductSize("10 tablets", 449), ProductSize("20 tablets", 799), ProductSize("30 tablets", 1099)]),
      Entry(3, "Antihistamine (Cetirizine)", [ProductSize("7 tablets", 499), ProductSize("14 tablets", 899)]),
      Entry(4, "Nasal Spray", [ProductSize("15ml", 549), ProductSize("30ml", 949)]),
      Entry(5, "Cough Syrup", [ProductSize("100ml", 699), ProductSize("200ml", 1299)]),
      Entry(6, "Throat Lozenges", [ProductSize("12 lozenges", 349), ProductSize("24 lozenges", 599)]),
      Entry(7, "Pain Relief Gel", [ProductSize("30g", 749), ProductSize("50g", 1199)]),
      Entry(8, "Digestive Enzyme Tablets", [ProductSize("20 tablets", 899), ProductSize("40 tablets", 1599)]),
      Entry(9, "Vitamin C 1000mg", [ProductSize("30 tablets", 649), ProductSize("60 tablets", 1149)]),
      Entry(10, "Eye Drops", [ProductSize("10ml", 599), ProductSize("20ml", 999)]),
      Entry(11, "Antacid Tablets", [ProductSize("12 tablets", 429), ProductSize("24 tablets", 749)]),
      Entry(12, "Electrolyte Powder Sachets", [ProductSize("5 sachets", 699), ProductSize("10 sachets", 1249)]) ]
  }

  predicate DistinctIds(ps: seq<Product>)
  {
    forall i, j :: 0 <= i < j < |ps| ==> ps[i].id != ps[j].id
  }

  /** Every product starts unsized at quantity zero, with ids 1..12. */
  lemma InitialCatalog()
    ensures |InitialProducts()| == 12
    ensures forall i :: 0 <= i < 12 ==> InitialProducts()[i].id == i + 1
    ensures forall p :: p in InitialProducts() ==> p.quantity == 0 && p.selectedSize == None
    ensures DistinctIds(InitialProducts())
  {
    var ps := InitialProducts();
    assert forall i :: 0 <= i < |ps| ==> ps[i].id == i + 1;
    assert forall i :: 0 <= i < |ps| ==> ps[i].quantity == 0 && ps[i].selectedSize == None;
  }

  /** Two entries for the same catalog item: same id, name and sizes. */
  predicate SameItem(p: Product, q: Product)
  {
    p.id == q.id && p.name == q.name && p.sizes == q.sizes
  }

  predicate SameItems(a: seq<Product>, b: seq<Product>)
  {
    |a| == |b| && forall i :: 0 <= i < |a| ==> SameItem(a[i], b[i])
  }

  /** The first product with the given id, as a search over the list finds it. */
  function FindProduct(ps: seq<Product>, id: int): (r: Option<Product>)
    ensures r.Some? ==> r.value in ps && r.value.id == id
    ensures r.None? <==> forall p :: p in ps ==> p.id != id
  {
    if ps == [] then None
    else if ps[0].id == id then Some(ps[0])
    else FindProduct(ps[1..], id)
  }

  /** With distinct ids the search finds the one product carrying the id. */
  lemma FindProductUnique(ps: seq<Product>, k: nat)
    requires DistinctIds(ps) && k < |ps|
    ensures FindProduct(ps, ps[k].id) == Some(ps[k])
  {
  }

  /** The first size with the given label. */
  function FindSize(sizes: seq<ProductSize>, value: string): (r: Option<ProductSize>)
    ensures r.Some? ==> r.value in sizes && r.value.sizeLabel == value
    ensures r.Some? ==> exists k :: 0 <= k < |sizes| && sizes[k] == r.value &&
                          forall j :: 0 <= j < k ==> sizes[j].sizeLabel != value
    ensures r.None? <==> forall s :: s in sizes ==> s.sizeLabel != value
  {
    if sizes == [] then None
    else if sizes[0].sizeLabel == value then Some(sizes[0])
    else
      var r := FindSize(sizes[1..], value);
      if r.Some? then
        var k :| 0 <= k < |sizes[1..]| && sizes[1..][k] == r.value &&
                 forall j :: 0 <= j < k ==> sizes[1..][j].sizeLabel != value;
        assert sizes[k + 1] == r.value;
        r
      else r
  }

  /** Each product with id `id` gets `size` as its selected size; nothing else changes. */
  function SelectSize(ps: seq<Product>, id: int, size: ProductSize): (r: seq<Product>)
    ensures SameItems(r, ps)
    ensures forall i :: 0 <= i < |ps| ==> r[i].quantity == ps[i].quantity
    ensures forall i :: 0 <= i < |ps| && ps[i].id != id ==> r[i] == ps[i]
    ensures forall i :: 0 <= i < |ps| && ps[i].id == id ==> r[i].selectedSize == Some(size)
  {
    seq(|ps|, i requires 0 <= i < |ps| =>
      if ps[i].id == id then ps[i].(selectedSize := Some(size)) else ps[i])
  }

  /** Each product with id `id` has its quantity raised by exactly one; nothing else changes. */
  function Increase(ps: seq<Product>, id: int): (r: seq<Product>)
    ensures SameItems(r, ps)
    ensures forall i :: 0 <= i < |ps| ==> r[i].selectedSize == ps[i].selectedSize
    ensures forall i :: 0 <= i < |ps| && ps[i].id != id ==> r[i] == ps[i]
    ensures forall i :: 0 <= i < |ps| && ps[i].id == id ==> r[i].quantity == ps[i].quantity + 1
  {
    seq(|ps|, i requires 0 <= i < |ps| =>
      if ps[i].id == id then ps[i].(quantity := ps[i].quantity + 1) else ps[i])
  }

  /** Each product with id `id` and a positive quantity has it lowered by one; nothing else changes. */
  function Decrease(ps: seq<Product>, id: int): (r: seq<Product>)
    ensures SameItems(r, ps)
    ensures forall i :: 0 <= i < |ps| ==> r[i].selectedSize == ps[i].selectedSize
    ensures forall i :: 0 <= i < |ps| && (ps[i].id != id || ps[i].quantity <= 0) ==> r[i] == ps[i]
    ensures forall i :: 0 <= i < |ps| && ps[i].id == id && ps[i].quantity > 0 ==>
              r[i].quantity == ps[i].quantity - 1
  {
    seq(|ps|, i requires 0 <= i < |ps| =>
      if ps[i].id == id && ps[i].quantity > 0 then ps[i].(quantity := ps[i].quantity - 1) else ps[i])
  }

  /** Each product with id `id` has its quantity reset to zero, keeping its size; nothing else changes. */
  function ResetQuantity(ps: seq<Product>, id: int): (r: seq<Product>)
    ensures SameItems(r, ps)
    ensures forall i :: 0 <= i < |ps| ==> r[i].selectedSize == ps[i].selectedSize
    ensures forall i :: 0 <= i < |ps| && ps[i].id != id ==> r[i] == ps[i]
    ensures forall i :: 0 <= i < |ps| && ps[i].id == id ==> r[i].quantity == 0
  {
    seq(|ps|, i requires 0 <= i < |ps| =>
      if ps[i].id == id then ps[i].(quantity := 0) else ps[i])
  }

  predicate NonNegativeQuantities(ps: seq<Product>)
  {
    forall i :: 0 <= i < |ps| ==> ps[i].quantity >= 0
  }

  /** No counter goes below zero: decreasing only ever lowers a positive quantity. */
  lemma DecreaseKeepsNonNegative(ps: seq<Product>, id: int)
    requires NonNegativeQuantities(ps)
    ensures NonNegativeQuantities(Decrease(ps, id))
  {
  }

  lemma SameItemsTransitive(a: seq<Product>, b: seq<Product>, c: seq<Product>)
    requires SameItems(a, b) && SameItems(b, c)
    ensures SameItems(a, c)
  {
  }

  /** The "Add to Order" button's disabled flag for one card. */
  predicate AddDisabled(p: Product)
  {
    p.selectedSize.None? || p.quantity <= 0
  }

  /** The validation addToCart performs: the error it reports, or None when it goes ahead. */
  function AddCheck(ps: seq<Product>, id: int): (r: Option<string>)
    ensures r.None? <==> FindProduct(ps, id).Some? && !AddDisabled(FindProduct(ps, id).value)
    ensures FindProduct(ps, id).None? ==> r == Some(SelectSizeFirst)
    ensures FindProduct(ps, id).Some? && FindProduct(ps, id).value.selectedSize.None? ==>
              r == Some(SelectSizeFirst)
    ensures (&& FindProduct(ps, id).Some?
             && FindProduct(ps, id).value.selectedSize.Some?
             && FindProduct(ps, id).value.quantity <= 0) ==> r == Some(SelectAtLeastOne)
  {
    match FindProduct(ps, id)
    case None => Some(SelectSizeFirst)
    case Some(p) =>
      if p.selectedSize.None? then Some(SelectSizeFirst)
      else if p.quantity <= 0 then Some(SelectAtLeastOne)
      else None
  }

  /** For a card on screen, the handler's checks agree with the card's disabled flag. */
  lemma CardButtonMatchesHandler(ps: seq<Product>, k: nat)
    requires DistinctIds(ps) && k < |ps|
    ensures AddCheck(ps, ps[k].id).None? <==> !AddDisabled(ps[k])
  {
    FindProductUnique(ps, k);
  }

  class OtcCatalogScreen {
    var products: seq<Product>
    var cartCount: int

    /**
     * The catalog keeps its items (ids, names and sizes, in order), no
     * counter is negative, and the cart count is not negative either.
     */
    ghost predicate Valid()
      reads this
    {
      && SameItems(products, InitialProducts())
      && NonNegativeQuantities(products)
      && cartCount >= 0
    }

    constructor ()
      ensures products == InitialProducts() && cartCount == 0
      ensures Valid()
    {
      products := InitialProducts();
      cartCount := 0;
    }

    method HandleSizeSelect(productId: int, size: ProductSize)
      requires Valid()
      modifies this`products
      ensures Valid()
      ensures products == SelectSize(old(products), productId, size)
    {
      SameItemsTransitive(SelectSize(products, productId, size), products, InitialProducts());
      products := SelectSize(products, productId, size);
    }

    /**
     * The size picker of card `card` reported `value`: the size with that label of
     * that product is selected; a label it does not offer changes nothing.
     */
    method ChooseSize(card: nat, value: string)
      requires Valid() && card < |products|
      modifies this`products
      ensures Valid()
      ensures FindSize(old(products)[card].sizes, value).None? ==> products == old(products)
      ensures FindSize(old(products)[card].sizes, value).Some? ==>
                var size := FindSize(old(products)[card].sizes, value).value;
                && products == SelectSize(old(products), old(products)[card].id, size)
                && products[card].selectedSize == Some(size)
                && size in products[card].sizes && size.sizeLabel == value
    {
      var product := products[card];
      var size := FindSize(product.sizes, value);
      if size.Some? {
        HandleSizeSelect(product.id, size.value);
      }
    }

    method IncreaseQuantity(productId: int)
      requires Valid()
      modifies this`products
      ensures Valid()
      ensures products == Increase(old(products), productId)
    {
      SameItemsTransitive(Increase(products, productId), products, InitialProducts());
      products := Increase(products, productId);
    }

    method DecreaseQuantity(productId: int)
      requires Valid()
      modifies this`products
      ensures Valid()
      ensures products == Decrease(old(products), productId)
    {
      SameItemsTransitive(Decrease(products, productId), products, InitialProducts());
      DecreaseKeepsNonNegative(products, productId);
      products := Decrease(products, productId);
    }

    /**
     * Adds the product's quantity to the cart count and resets its counter.
     * Without a product or a chosen size, or with a zero quantity, it reports
     * an error and changes nothing.
     */
    method AddToCart(productId: int) returns (o: Outcome)
      requires Valid()
      modifies this`products, this`cartCount
      ensures Valid()
      ensures cartCount >= old(cartCount)
      ensures AddCheck(old(products), productId).Some? ==>
                && o == Error(AddCheck(old(products), productId).value)
                && products == old(products) && cartCount == old(cartCount)
      ensures AddCheck(old(products), productId).None? ==>
                && o == NoOp
                && cartCount == old(cartCount) + FindProduct(old(products), productId).value.quantity
                && cartCount > old(cartCount)
                && products == ResetQuantity(old(products), productId)
    {
      var found := FindProduct(products, productId);
      if found.None? || found.value.selectedSize.None? {
        return Error(SelectSizeFirst);
      }
      var product := found.value;
      if product.quantity <= 0 {
        return Error(SelectAtLeastOne);
      }
      cartCount := cartCount + product.quantity;
      SameItemsTransitive(ResetQuantity(products, productId), products, InitialProducts());
      products := ResetQuantity(products, productId);
      o := NoOp;
    }

    /** The cart count badge and the Continue bar are shown only with a positive count. */
    predicate ContinueVisible()
      reads this
    {
      cartCount > 0
    }

    /** Continue goes to delivery with a non-empty cart and otherwise reports an error. */
    method HandleContinue() returns (o: Outcome)
      ensures cartCount > 0 ==> o == Navigate(Delivery)
      ensures cartCount <= 0 ==> o == Error(AddToCartFirst)
      ensures o == Navigate(Delivery) <==> ContinueVisible()
    {
      if cartCount > 0 {
        o := Navigate(Delivery);
      } else {
        o := Error(AddToCartFirst);
      }
    }
  }

  /** Back returns to the medication-type choice. */
  function BackTarget(): (o: Outcome)
    ensures o == Navigate(MedicationType)
  {
    Navigate(Route.MedicationType)
  }

  /** The catalog run of an over-the-counter order: two packs of 20 paracetamol tablets. */
  method ParacetamolOrder() returns (count: int, o: Outcome)
    ensures count == 2
    ensures o == Navigate(Delivery)
  {
    var screen := new OtcCatalogScreen();
    var paracetamol := InitialProducts()[0];
    assert FindSize(paracetamol.sizes, "20 tablets") == Some(paracetamol.sizes[1]);
    screen.ChooseSize(0, "20 tablets");
    assert screen.products[0] == paracetamol.(selectedSize := Some(paracetamol.sizes[1]));
    screen.IncreaseQuantity(1);
    screen.IncreaseQuantity(1);
    assert screen.products[0] == paracetamol.(selectedSize := Some(paracetamol.sizes[1]), quantity := 2);
    var added := screen.AddToCart(1);
    count := screen.cartCount;
    o := screen.HandleContinue();
  }
}
