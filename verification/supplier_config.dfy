/**
 * What the supplier runs read from outside: the suppliers configuration file
 * and the retailer identity from the application settings.
 */
module SupplierConfig {
  import opened JsonModel

  /** The outcome of opening and decoding the configuration file. */
  datatype ConfigFile =
    | Missing
    | Undecodable(detail: string)
    | Parsed(document: Json)

  /** RETAILER_ID and RETAILER_GLN from the settings. */
  datatype Settings = Settings(retailerId: string, retailerGln: string)
}
