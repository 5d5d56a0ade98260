/** The GtinStock entity and its construction-time check on the quantity. */
module GtinStockEntity {
  import opened Wrappers
  import opened Exceptions
  import opened StockDtos

  /** SupplierInfo value object. */
  datatype SupplierInfo = SupplierInfo(
    retailerId: string,
    retailerGln: string,
    supplierId: string,
    supplierGln: string,
    supplierName: string)

  datatype GtinStock = GtinStock(
    gtin: string,
    supplierInfo: SupplierInfo,
    quantity: Option<int>,
    stockTrafficLight: Option<string>,
    itemType: Option<string>,
    timestamp: Option<Timestamp>,
    id: Option<int>)

  /** The entity invariant: a known quantity is never negative. */
  predicate Valid(g: GtinStock) {
    g.quantity.None? || g.quantity.value >= 0
  }

  const NegativeQuantityText: string := "Quantity cannot be negative."

  /**
   * Constructing a GtinStock (the dataclass constructor followed by
   * `__post_init__`): a negative quantity raises ValueError, nothing else is checked.
   */
  function NewGtinStock(
    gtin: string, supplierInfo: SupplierInfo, quantity: Option<int>,
    stockTrafficLight: Option<string>, itemType: Option<string>,
    timestamp: Option<Timestamp>, id: Option<int>): (r: Result<GtinStock, Error>)
    ensures r.Success? <==> quantity.None? || quantity.value >= 0
    ensures r.Success? ==> Valid(r.value)
    ensures r.Success? ==> r.value == GtinStock(gtin, supplierInfo, quantity, stockTrafficLight, itemType, timestamp, id)
    ensures r.Failure? ==> r.error == Builtin(ValueError, NegativeQuantityText)
  {
    if quantity.Some? && quantity.value < 0 then Failure(Builtin(ValueError, NegativeQuantityText))
    else Success(GtinStock(gtin, supplierInfo, quantity, stockTrafficLight, itemType, timestamp, id))
  }
}
