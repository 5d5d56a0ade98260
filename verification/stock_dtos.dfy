/** The records passed between the stock client, the services and the stock store. */
module StockDtos {
  import opened Wrappers
  import opened JsonModel

  /** A parsed `datetime`, kept opaque: identified by its normalised ISO-8601 text. */
  datatype Timestamp = Timestamp(iso: string)

  /**
   * SupplierContextDTO. Retailer id and GLN come from the settings; the
   * supplier fields hold whatever value the configuration supplied.
   */
  datatype SupplierContext = SupplierContext(
    retailerId: string,
    retailerGln: string,
    supplierId: Json,
    supplierGln: Json,
    supplierName: Json)

  /**
   * GtinStockItemDTO. The GTIN, quantity and traffic light hold whatever
   * value the API entry supplied (JNull for a missing one); the item type
   * and timestamp are computed by the client.
   */
  datatype GtinStockItem = GtinStockItem(
    gtin: Json,
    quantity: Json,
    stockTrafficLight: Json,
    itemType: Option<string>,
    timestamp: Option<Timestamp>)

  /** GtinStockResponseDTO. */
  datatype GtinStockResponse = GtinStockResponse(supplierContext: SupplierContext, stockItems: seq<GtinStockItem>)
}
