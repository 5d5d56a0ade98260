# ECCAmazon stock and article sync, modelled in Dafny

This project models the synchronisation core of the ECCAmazon pipeline.

Step 1, GTIN stock:
- The Global Stock client discovers the GTINs a supplier has in stock and slices them into batches.
- It asks for the availability of each GTIN and turns every `stocksQueryResult` entry into a `GtinStockItemDTO`.
- It hands each non-empty batch to a save callback whose failures it swallows.
- `step1_main.py` loads the suppliers configuration, builds a supplier context per record, runs the fetch for every supplier and counts successes, failures and items.
- The legacy `GtinStockApplicationService` does the same job item by item against `MySQLGtinStockRepository`. That repository is modelled as a map keyed by (gtin, supplier_gln, retailer_gln).

Step 2, articles:
- The ECC client makes one request per (supplier GLN, GTIN) pair and maps the answers with `ArticleDataDTO.from_api_response`.
- The article and EAN application services fetch once and then save each result in order.
- `MySQLArticleRepository` builds the SQL text and parameters and decodes rows back into DTOs.
- The exception classes build their messages.

HTTP endpoints, the MySQL server, ISO date parsing and `json.dumps`/`json.loads` are oracles: functions fixed when the client or repository is built. Requests, statements, callback calls and collaborator calls are recorded in ghost logs (`effects`, `executed`, `calls`). Each imperative operation is a method whose `ensures` ties its result and new state to a specification function. The promised properties are proved about those functions as lemmas.

Where the repository's tests disagree with the code, the model follows the code:
- The tests expect a three-attempt timeout retry. The client returns `{}` on the first timeout.
- The service tests expect a `batch_save_gtin_stock_items` repository call and a `get_all_gtin_codes` service method. `sync_all_supplier_stock` saves item by item, and the service has no such method.

## Model


| member | source | states |
|---|---|---|
| Exceptions.NewApplicationError | src/common/exceptions/custom_exceptions.py:7-12 | an ApplicationError keeps the message and the original exception exactly as passed |
| Exceptions.NewApiError | src/common/exceptions/custom_exceptions.py:23-33 | an APIError keeps the original exception and the status code exactly as passed |
| Exceptions.NewDatabaseError | src/common/exceptions/custom_exceptions.py:39-41 | a DatabaseError keeps the original exception as passed |
| Exceptions.ApiMessageShape | src/common/exceptions/custom_exceptions.py:31-33 | the APIError message is "API Error: " + message, with a suffix exactly when the status code is truthy (None and 0 add nothing) |
| Exceptions.ApiStatusReadBack | src/common/exceptions/custom_exceptions.py:32-33 | a non-zero status code can be read back from the " (Status Code: N)" suffix |
| Exceptions.DatabaseMessageShape | src/common/exceptions/custom_exceptions.py:41 | the DatabaseError message is "Database Error: " + message and nothing more |
| Exceptions.RenderShape | src/common/exceptions/custom_exceptions.py:14-17 | `str(e)` is the message, followed by " (Original error: …)" exactly when there is an original exception |
| GtinStockEntity.NewGtinStock | src/product_availability_domain/domain/entities/gtin_stock.py:8-23 | construction succeeds exactly when the quantity is None or at least 0, and then keeps every field as given; a negative quantity raises ValueError |
| Batching.Batches | src/product_availability_domain/infrastructure/api_clients/global_stock_api_client.py:169 | a negative batch size gives no batch at all, because the range is empty |
| Batching.BatchesCover | src/product_availability_domain/infrastructure/api_clients/global_stock_api_client.py:169 | the batches concatenated give back the discovered GTIN list exactly |
| Batching.BatchesCount | src/product_availability_domain/infrastructure/api_clients/global_stock_api_client.py:169-170 | there are ceil(n / size) batches, and none exactly for an empty list |
| Batching.BatchesShape | src/product_availability_domain/infrastructure/api_clients/global_stock_api_client.py:169 | every batch is non-empty and at most `size` long; all but the last are exactly `size` long |
| GlobalStockClient.StatusText | src/product_availability_domain/infrastructure/api_clients/global_stock_api_client.py:69-72 | the status part of the discovery error is "N/A" exactly when no response is attached, otherwise a decimal text that parses back to the code (the corrected reading, see Findings) |
| GlobalStockClient.StatusTextAsWrittenHidesErrorStatus | src/product_availability_domain/infrastructure/api_clients/global_stock_api_client.py:64-72 | as written, an error response with status 404 still yields "N/A", where the corrected text does not |
| GlobalStockClient.ItemType | src/product_availability_domain/infrastructure/api_clients/global_stock_api_client.py:136 | the item type is "Pair" exactly when the type value equals 1, that is the JSON integer 1 or `true` (Python has `True == 1`), and "Set" otherwise, a missing type included |
| GlobalStockClient.EntryTimestamp | src/product_availability_domain/infrastructure/api_clients/global_stock_api_client.py:128-129 | a falsy timestamp (missing, null, empty, 0, false) gives None; a truthy value that is not a str raises AttributeError at `replace`; a str is parsed after "Z" becomes "+00:00" and raises ValueError exactly when that parse fails |
| GlobalStockClient.MapEntry | src/product_availability_domain/infrastructure/api_clients/global_stock_api_client.py:128-139 | an entry that is not a dict raises AttributeError at `entry.get`; for a dict, gtin, quantity and traffic light are copied as the entry holds them (null when missing), the item type is ItemType of its type and the timestamp comes from EntryTimestamp, and it fails exactly when the timestamp does, with that error |
| GlobalStockClient.BodyItems | src/product_availability_domain/infrastructure/api_clients/global_stock_api_client.py:123-139 | a body without a length raises TypeError at `in`; a dict without `stocksQueryResult` gives no items; a null `stocksQueryResult` raises the "not iterable" TypeError; a list value is mapped entry by entry; a list or str body never yields items |
| GlobalStockClient.GtinBatches | src/product_availability_domain/infrastructure/api_clients/global_stock_api_client.py:169 | slicing raises the unhashable-slice TypeError exactly for a non-empty dict and a positive batch size; a list or str is cut into Batches of its elements (a str into its characters); a dict otherwise gives no batch |
| StockFetchProperties.AnswerItemsMeaning | src/product_availability_domain/infrastructure/api_clients/global_stock_api_client.py:126-139 | for a `stocksQueryResult` list, the answer maps exactly when every entry is a dict whose timestamp reads; then one item per entry, in order, with the entry's own values; otherwise the first failing entry's exception is raised |
| GlobalStockClient.GlobalStockApiClient.constructor | src/product_availability_domain/infrastructure/api_clients/global_stock_api_client.py:26-30 | the client starts with the given base URL, token and retailer GLN, a zero counter and no effects |
| GlobalStockClient.GlobalStockApiClient.DiscoveryResult | src/product_availability_domain/infrastructure/api_clients/global_stock_api_client.py:57-76 | a missing token raises APIError; every failure is an APIError; discovery succeeds exactly when there is a token and the endpoint answers with a decoded body, which is returned as it is, whatever its JSON type; the status text of the error message is the one the client writes (StatusTextAsWritten) |
| GlobalStockClient.GlobalStockApiClient.AvailabilityResult | src/product_availability_domain/infrastructure/api_clients/global_stock_api_client.py:83-103 | a missing token raises APIError; with a token, a decoded answer is returned as it is, and a timeout or request error gives the empty dict `{}` |
| GlobalStockClient.GlobalStockApiClient.GtinResult | src/product_availability_domain/infrastructure/api_clients/global_stock_api_client.py:121-139 | a missing token raises; a failed request contributes no items; a decoded answer contributes BodyItems of it, its errors included; a GTIN that yields items was requested |
| GlobalStockClient.GlobalStockApiClient.GtinsRun | src/product_availability_domain/infrastructure/api_clients/global_stock_api_client.py:112-144 | the GTIN loop of a batch hands nothing to the callback and consumes at most the batch's GTINs |
| GlobalStockClient.GlobalStockApiClient.FetchSpec | src/product_availability_domain/infrastructure/api_clients/global_stock_api_client.py:157-223 | a successful response carries the input supplier context unchanged and follows a discovery that returned a value with a length; after a discovery failure the counter is not reset and no callback is called |
| GlobalStockClient.GlobalStockApiClient.GetGtinsWithStock | src/product_availability_domain/infrastructure/api_clients/global_stock_api_client.py:53-76 | returns or raises what DiscoveryResult says, error status text as written; the request is logged only when there is a token |
| GlobalStockClient.GlobalStockApiClient.GetGtinAvailability | src/product_availability_domain/infrastructure/api_clients/global_stock_api_client.py:78-103 | returns or raises what AvailabilityResult says; the request is logged only when there is a token |
| GlobalStockClient.GlobalStockApiClient.MapStockEntries | src/product_availability_domain/infrastructure/api_clients/global_stock_api_client.py:126-139 | the entry loop returns the mapping of all entries in order, or the first entry's exception |
| GlobalStockClient.GlobalStockApiClient.ReadStockEntries | src/product_availability_domain/infrastructure/api_clients/global_stock_api_client.py:123-139 | the `in` test, the subscript and the entry loop give BodyItems of the answer |
| GlobalStockClient.GlobalStockApiClient.FetchGtinItems | src/product_availability_domain/infrastructure/api_clients/global_stock_api_client.py:121-139 | one GTIN: one availability request and the items GtinResult gives |
| GlobalStockClient.GlobalStockApiClient.ProcessGtinBatch | src/product_availability_domain/infrastructure/api_clients/global_stock_api_client.py:105-144 | `_process_gtin_batch`: the counter grows by the GTINs processed, the requests follow them in order, and the items are those of GtinsRun |
| GlobalStockClient.GlobalStockApiClient.FetchGtinStockDataOptimized | src/product_availability_domain/infrastructure/api_clients/global_stock_api_client.py:146-192 | the sequential fetch returns FetchSpec's response; `len` of a discovered value without a length raises TypeError before the counter is reset; the counter is left alone on a discovery failure and otherwise reset and advanced once per GTIN; effects are discovery, requests and callback calls in order; a zero batch size raises ValueError from `range` |
| GlobalStockClient.GlobalStockApiClient.ProcessBatches | src/product_availability_domain/infrastructure/api_clients/global_stock_api_client.py:172-192 | the batch loop: items extended batch by batch, the counter advanced per GTIN, and the first exception ends it |
| GlobalStockClient.GlobalStockApiClient.ProcessBatch | src/product_availability_domain/infrastructure/api_clients/global_stock_api_client.py:177-188 | one batch: its GTINs, then the callback call only when the batch did not raise |
| GlobalStockClient.GlobalStockApiClient.HandOverBatch | src/product_availability_domain/infrastructure/api_clients/global_stock_api_client.py:183-188 | the callback is called only when one is given and the batch has items, and its outcome changes nothing else |
| GlobalStockClient.GlobalStockApiClient.FetchGtinStockData | src/product_availability_domain/infrastructure/api_clients/global_stock_api_client.py:225-232 | the legacy call is the optimised call with batch size 100, one worker and no callback |
| StockFetchProperties.BatchesRunFlat | src/product_availability_domain/infrastructure/api_clients/global_stock_api_client.py:174-180 | the batch loop returns, counts and logs, hand-overs aside, exactly what one GTIN loop over the concatenated batches does |
| StockFetchProperties.BatchesRunHanded | src/product_availability_domain/infrastructure/api_clients/global_stock_api_client.py:174-188 | the hand-overs logged are the lists handed over, each non-empty; there are none without a callback; when no batch raises, the callback calls are exactly one per batch with items, in order, each with the supplier context and that batch's items, and together they hold the items returned |
| StockFetchProperties.BatchesRunPerBatch | src/product_availability_domain/infrastructure/api_clients/global_stock_api_client.py:174-188 | a batch loop that does not raise ran every batch without an exception, and its effects are each batch's requests followed by that batch's callback call, batch after batch |
| StockFetchProperties.PerBatchCalls | src/product_availability_domain/infrastructure/api_clients/global_stock_api_client.py:182-185 | the callback calls among those effects are one per batch with items, with the supplier context and that batch's items, in order |
| StockFetchProperties.GtinsEffectsPlain | src/product_availability_domain/infrastructure/api_clients/global_stock_api_client.py:105-144 | the GTIN loop of a batch logs no hand-over |
| StockFetchProperties.GtinsRunRequestsAll | src/product_availability_domain/infrastructure/api_clients/global_stock_api_client.py:114-121 | a GTIN loop without an exception requested and counted every GTIN once, in order |
| StockFetchProperties.BatchSizeIrrelevant | src/product_availability_domain/infrastructure/api_clients/global_stock_api_client.py:169-180 | any two positive batch sizes, with or without a callback, give the same response, counter and logged effects apart from hand-overs |
| StockFetchProperties.SuccessfulFetchRequestsEveryGtin | src/product_availability_domain/infrastructure/api_clients/global_stock_api_client.py:159-180 | after a successful fetch with a positive batch size, discovery returned a list, a str or an empty dict, every element of it was requested exactly once, in discovery order, and the counter equals their number |
| StockFetchProperties.StrDiscoveryRequestsCharacters | src/product_availability_domain/infrastructure/api_clients/global_stock_api_client.py:160-169 | a str returned by discovery is fetched character by character: each character is requested as a GTIN, in order |
| StockFetchProperties.UnsizedDiscoveryStopsFetch | src/product_availability_domain/infrastructure/api_clients/global_stock_api_client.py:159-160 | a discovered value without a length (null, a number, a boolean) raises the `len` TypeError; the counter is not reset and nothing is requested or handed over |
| StockFetchProperties.DictDiscoveryFailsToSlice | src/product_availability_domain/infrastructure/api_clients/global_stock_api_client.py:165-169 | a non-empty dict returned by discovery raises the unhashable-slice TypeError after the counter is reset to 0, before any availability request |
| StockFetchProperties.DiscoveryErrorHidesStatus | src/product_availability_domain/infrastructure/api_clients/global_stock_api_client.py:69-72 | a discovery error response with a 4xx/5xx status, or none, gives the message "… Status code: N/A" |
| StockFetchProperties.CallbackSeesEveryItem | src/product_availability_domain/infrastructure/api_clients/global_stock_api_client.py:174-188 | a successful fetch is discovery followed by the batches in order, each batch's requests followed by its own callback call with the supplier context and exactly that batch's items; with a callback every returned item is handed over exactly once, in non-empty lists; without one nothing |
| StockFetchProperties.NegativeBatchSizeFetchesNothing | src/product_availability_domain/infrastructure/api_clients/global_stock_api_client.py:169 | after a discovery that returned a value with a length, a negative batch size makes no batch: an empty response, counter 0 and no availability request |
| StockFetchProperties.DiscoveryFailureStopsFetch | src/product_availability_domain/infrastructure/api_clients/global_stock_api_client.py:159 | when discovery raises, that APIError is the result, the counter is not reset, and no availability request or callback call happens |
| Step1Sync.LoadSuppliersConfig | step1_main.py:62-84 | succeeds exactly for a wrapper object with a truthy `suppliers` value or a non-empty top-level list, returning that value or the list itself; every failure is an ApplicationError without an original exception |
| Step1Sync.Either | step1_main.py:90-92 | Python's `a or b`: `a` when truthy, otherwise `b`; truthy exactly when either is |
| Step1Sync.CreateSupplierContext | step1_main.py:87-103 | a record that is not a dict has no `get`; otherwise it succeeds exactly when all three fields, each from the lower-case key or else the upper-case key, are truthy; retailer id and GLN come from the settings |
| Step1Sync.RunGtinStockSyncProcessOptimized | step1_main.py:120-186 | the whole run returns RunSpec's summary or exception and leaves the client's effects and counter as RunSpec says; a record that is not a dict ends the run (see Findings) |
| Step1Sync.ProcessSuppliers | step1_main.py:129-168 | the supplier loop as written: its summary or exception, client effects and counter are those of RunRecords, whose handler raises for a record that is not a dict |
| Step1Sync.ProcessSupplier | step1_main.py:134-160 | one record: its context, then the fetch with batches of 100, one worker and the save callback |
| Step1Sync.EveryRecordCounted | step1_main.py:129-168 | the loop as written ends the run exactly when some record is not a dict; when it completes, successful + failed is the number of records, successful counts the records fetched without an exception, and the item total sums their responses |
| Step1Sync.RunCompletesOnObjects | step1_main.py:164-166 | the loop as written completes exactly when every record is a dict |
| Step1Sync.FirstNonObjectEndsRun | step1_main.py:164-186 | the first record that is not a dict ends the run with the AttributeError of its `.get`, after exactly the effects and counter of the records before it |
| Step1Sync.IntendedCountsEveryRecord | step1_main.py:129-168 | the corrected loop never ends the run: successful + failed is the number of records, successful counts the records fetched without an exception, and the item total sums their responses (see Findings) |
| Step1Sync.NonObjectRecordAbortsRun | step1_main.py:164-166 | as written, the configuration `["acme"]` ends the whole run with AttributeError, where the corrected loop counts one failed supplier (see Findings) |
| Step1Sync.AsWrittenAgreesOnObjects | step1_main.py:133-168 | when every record is a dict, the loop as written completes with the corrected loop's summary |
| GtinStockService.ServiceContext | src/product_availability_domain/application/gtin_stock_service.py:35-42 | the context exists exactly when the record is a dict holding SUPPLIER_ID, SUPPLIER_GLN and SUPPLIER_NAME, whose values it takes with the settings' retailer fields; a missing key raises KeyError, a record that is not a dict raises TypeError |
| GtinStockService.GtinStockApplicationService.constructor | src/product_availability_domain/application/gtin_stock_service.py:15-18 | the service keeps the repository and the client it is given |
| GtinStockService.GtinStockApplicationService.SyncAllSupplierStock | src/product_availability_domain/application/gtin_stock_service.py:20-65 | returns SyncSpec's outcome and leaves the table, client and call log as SyncSpec says; the table keeps one row per key |
| GtinStockService.GtinStockApplicationService.SyncSuppliers | src/product_availability_domain/application/gtin_stock_service.py:35-63 | the outer loop over the records follows SyncRecords |
| GtinStockService.GtinStockApplicationService.SyncSupplier | src/product_availability_domain/application/gtin_stock_service.py:47-63 | one supplier inside the `try` follows SupplierSync: whatever the fetch or a save raises is caught |
| GtinStockService.GtinStockApplicationService.SaveEach | src/product_availability_domain/application/gtin_stock_service.py:54-55 | the item loop follows SaveItems and leaves the client untouched |
| GtinStockService.GtinStockApplicationService.GetSupplierStockData | src/product_availability_domain/application/gtin_stock_service.py:67-69 | sends one statement; raises the repository's DatabaseError exactly when the driver rejects it; otherwise returns exactly the rows for the context's supplier and retailer GLNs, each once, with the context passed in |
| GtinStockServiceProperties.SaveItemsPrefix | src/product_availability_domain/application/gtin_stock_service.py:54-63 | a supplier's saves are a prefix of its items, in order, one statement each; the loop stops early only because the last save raised, and that DatabaseError is the result |
| GtinStockServiceProperties.SaveItemsAll | src/product_availability_domain/application/gtin_stock_service.py:54-55 | when no save raises, every item is saved once, in order, with the supplier's context |
| GtinStockServiceProperties.SaveStepStores | src/product_availability_domain/application/gtin_stock_service.py:55 | a save that does not raise stores its item's row and removes none |
| GtinStockServiceProperties.SaveItemsStoresEach | src/product_availability_domain/application/gtin_stock_service.py:54-55 | when no save raises, every item has a row under its key afterwards and no earlier row is removed |
| GtinStockServiceProperties.SupplierSyncCalls | src/product_availability_domain/application/gtin_stock_service.py:47-55 | one supplier makes exactly one fetch with its context, followed only by saves of that context; a failed fetch or an empty response saves nothing |
| GtinStockServiceProperties.WellFormedRecordsFetchEach | src/product_availability_domain/application/gtin_stock_service.py:35-63 | when every record has the three keys, the run completes and fetches once per supplier, in configuration order, whatever earlier suppliers did |
| GtinStockServiceProperties.FirstBadRecordEndsRun | src/product_availability_domain/application/gtin_stock_service.py:35-42 | the first record without a context ends the whole run with its exception, after exactly what the records before it did |
| GtinStockServiceProperties.UnreadableConfigChangesNothing | src/product_availability_domain/application/gtin_stock_service.py:27-33 | a missing or undecodable configuration file raises an application exception before any supplier and changes nothing |
| GtinStockStore.NullColumn | src/product_availability_domain/infrastructure/persistence/mysql_gtin_stock_repository.py:39-44 | an insert leaves a NOT NULL column null exactly when the supplier id, the supplier GLN or the GTIN is None |
| GtinStockStore.NewRow | src/product_availability_domain/infrastructure/persistence/mysql_gtin_stock_repository.py:73-95 | the inserted row holds the five context values and the five item values |
| GtinStockStore.UpsertKeepsKeys | src/product_availability_domain/infrastructure/persistence/mysql_gtin_stock_repository.py:50 | the table keeps one row per (gtin, supplier_gln, retailer_gln), and an upsert adds at most the row's key |
| GtinStockStore.UpsertInsertsNewKey | src/product_availability_domain/infrastructure/persistence/mysql_gtin_stock_repository.py:73-76 | on an absent key the whole row is inserted |
| GtinStockStore.UpsertUpdatesStockColumns | src/product_availability_domain/infrastructure/persistence/mysql_gtin_stock_repository.py:77-82 | on an existing key only quantity, traffic light, item type and timestamp change; retailer id, supplier id and supplier name stay |
| GtinStockStore.UpsertLeavesOtherKeys | src/product_availability_domain/infrastructure/persistence/mysql_gtin_stock_repository.py:73-83 | rows under other keys are untouched |
| GtinStockStore.UpsertIdempotent | src/product_availability_domain/infrastructure/persistence/mysql_gtin_stock_repository.py:77-82 | saving the same item twice is saving it once (`date_synced` aside) |
| GtinStockStore.GtinStockRepository.constructor | src/product_availability_domain/infrastructure/persistence/mysql_gtin_stock_repository.py:16-18 | the repository starts with an empty table and no statement |
| GtinStockStore.GtinStockRepository.SaveResult | src/product_availability_domain/infrastructure/persistence/mysql_gtin_stock_repository.py:97-102 | a save raises exactly when the driver rejects the statement, and then raises a DatabaseError holding the driver's error |
| GtinStockStore.GtinStockRepository.SavedRows | src/product_availability_domain/infrastructure/persistence/mysql_gtin_stock_repository.py:97-102 | a failed save rolls back and leaves the table unchanged; a successful one is the upsert of the new row |
| GtinStockStore.GtinStockRepository.SaveGtinStockItem | src/product_availability_domain/infrastructure/persistence/mysql_gtin_stock_repository.py:68-104 | `save_gtin_stock_item`: one statement, the result of SaveResult and the table of SavedRows, one row per key kept |
| GtinStockStore.GtinStockRepository.QueryError | src/product_availability_domain/infrastructure/persistence/mysql_gtin_stock_repository.py:135-138 | a failed read raises a DatabaseError holding the driver's error |
| GtinStockStore.GtinStockRepository.GetGtinStockBySupplierContext | src/product_availability_domain/infrastructure/persistence/mysql_gtin_stock_repository.py:106-140 | one statement; a driver error becomes "Error fetching GTIN stock by supplier GLN …" DatabaseError; otherwise exactly the rows matching both the supplier GLN and the retailer GLN, each once, wrapped with the passed-in context |
| GtinStockStore.GtinStockRepository.SupplierItems | src/product_availability_domain/infrastructure/persistence/mysql_gtin_stock_repository.py:119-131 | the row loop returns one item per matching row, each once, read back from the row |
| GtinStockStore.GtinStockRepository.GetGtinStockByGtinAndSupplier | src/product_availability_domain/infrastructure/persistence/mysql_gtin_stock_repository.py:142-170 | one statement; a driver error becomes the "Error fetching GTIN stock for GTIN …, Supplier GLN …" DatabaseError; otherwise None exactly when no row matches (gtin, supplier_gln), else one matching row |
| GtinStockStore.GtinStockRepository.GetAllGtinCodes | src/product_availability_domain/infrastructure/persistence/mysql_gtin_stock_repository.py:172-184 | one statement; a driver error becomes the "Error fetching GTIN codes" DatabaseError; otherwise every stored GTIN that is neither NULL nor empty, exactly once |
| GtinStockStore.GtinStockRepository.GetUniqueSupplierGlns | src/product_availability_domain/infrastructure/persistence/mysql_gtin_stock_repository.py:186-200 | one statement; a driver error becomes the "Error fetching supplier GLNs" DatabaseError; otherwise every stored supplier GLN that is neither NULL nor empty, exactly once |
| GtinStockStore.GtinStockRepository.GetAllSupplierGtinPairs | src/product_availability_domain/infrastructure/persistence/mysql_gtin_stock_repository.py:202-216 | one statement; a driver error becomes the "Error fetching all supplier GLN and GTIN pairs" DatabaseError; otherwise every stored (supplier_gln, gtin) pair with both parts neither NULL nor empty, exactly once |
| ArticleDtos.CollectImages | src/common/dtos/article_dtos.py:99-104 | the loop over image groups returns GroupsImages of the groups |
| ArticleDtos.CollectMedia | src/common/dtos/article_dtos.py:102-104 | the loop over a group's media items returns MediaImages of the items |
| ArticleDtos.FromApiResponse | src/common/dtos/article_dtos.py:66-114 | `from_api_response` returns FromApi of the entry, whose properties are the ArticleDtoProperties rows |
| ArticleDtoProperties.ConstructReadsMapped | src/common/dtos/article_dtos.py:106-114 | construction fails exactly when `eccId` is missing or None, with the dataclass TypeError; otherwise every field reads as the mapped dict holds it, attributes are the empty list, the images are the ones given, and no None value is kept |
| ArticleDtoProperties.ConstructKeepsOptional | src/common/dtos/article_dtos.py:107-114 | without attributes or images in the mapped dict, the DTO's stored values are all optional fields and none is None |
| ArticleDtoProperties.MediaImagesMeaning | src/common/dtos/article_dtos.py:102-104 | a group's media items all yield an image exactly when they are all dicts; one image per item, in order |
| ArticleDtoProperties.GroupsImagesAreProductImages | src/common/dtos/article_dtos.py:104 | every image built from the groups has type "product_image" and sort index 0 |
| ArticleDtoProperties.MappedDataFields | src/common/dtos/article_dtos.py:70-82 | in the dict literal, a field with a source key holds that key's value and every other field is unset |
| ArticleDtoProperties.WithSeasonKeeps | src/common/dtos/article_dtos.py:85-87 | the season update leaves every field but the season id and name as it was |
| ArticleDtoProperties.WithSeasonSets | src/common/dtos/article_dtos.py:85-87 | a truthy dict under `season` sets the season id and name from its `id` and `value`; anything else leaves them |
| ArticleDtoProperties.WithAssortmentKeeps | src/common/dtos/article_dtos.py:90-96 | a successful assortment update leaves every field but ean and the two prices as it was |
| ArticleDtoProperties.WithAssortmentSets | src/common/dtos/article_dtos.py:90-96 | a successful update sets ean and the prices from the first entry of `de` only when `assortment` and its `de` entry are truthy, and `de` is then a list whose first entry is a dict; otherwise it changes nothing |
| ArticleDtoProperties.UpdatedKeeps | src/common/dtos/article_dtos.py:84-96 | a field neither update sets keeps the dict literal's value |
| ArticleDtoProperties.FromApiField | src/common/dtos/article_dtos.py:106-114 | every field of a mapped DTO reads as the updated dict holds it |
| ArticleDtoProperties.FromApiCopiesField | src/common/dtos/article_dtos.py:70-82 | a field with a source key that no update sets holds the value under that key |
| ArticleDtoProperties.FromApiBrandsAgree | src/common/dtos/article_dtos.py:76-77 | `brandOriginal` and `brandCleared` always agree, both coming from `brand` |
| ArticleDtoProperties.FromApiSeason | src/common/dtos/article_dtos.py:81-87 | a truthy dict under `season` decides the season id and name, even without `value`; otherwise the name is `seasonTxt` and there is no id |
| ArticleDtoProperties.FromApiAssortment | src/common/dtos/article_dtos.py:90-96 | ean, pricePricat and priceRetail come from the first entry of `assortment["de"]` when it is truthy, and are None otherwise |
| ArticleDtoProperties.UpdatedLeavesUnset | src/common/dtos/article_dtos.py:70-96 | a field with no source key that no update sets stays unset |
| ArticleDtoProperties.FromApiImagesAndAttributes | src/common/dtos/article_dtos.py:99-114 | the DTO's attributes are the empty list, its images are the entry's images, and its stored values are optional fields that are not None |
| ArticleDtoProperties.ArticleImagesAreProductImages | src/common/dtos/article_dtos.py:99-104 | every image of an entry has type "product_image" and sort index 0 |
| ArticleDtoProperties.FromApiRequiresEccId | src/common/dtos/article_dtos.py:71 | a well-shaped dict entry fails exactly when its `eccId` is missing or None, with the dataclass TypeError |
| ArticleDtoProperties.FromApiNeedsDict | src/common/dtos/article_dtos.py:67-71 | an entry that is not a dict fails at the first `data.get` |
| ResultSeq.MapAllMeaning | src/article_domain/infrastructure/api_clients/ecc_api_client.py:38 | a list comprehension completes exactly when no item raises, with one result per item in order; otherwise it raises the first failing item's exception |
| ResultSeq.MapEach | src/article_domain/infrastructure/api_clients/ecc_api_client.py:38 | the comprehension evaluated item by item, left to right, is MapAll |
| ResultSeq.FlatMapAllMeaning | src/article_domain/infrastructure/api_clients/ecc_api_client.py:28-39 | an extending loop completes exactly when no item raises, and then holds what the items yield, concatenated in order |
| PyJson.Contains | src/article_domain/infrastructure/api_clients/ecc_api_client.py:37 | `"articles" in data` raises TypeError exactly for a value that is not a dict, list or str; for a dict it tests the key, for a list the items |
| PyJson.Subscript | src/article_domain/infrastructure/api_clients/ecc_api_client.py:38 | `data["articles"]` succeeds exactly for a dict holding the key and returns its value; a dict without it raises KeyError, any other value TypeError |
| EccClient.PairsFoldResult | src/article_domain/infrastructure/api_clients/ecc_api_client.py:28-39 | the pair loop's result is the pairs' articles concatenated in pair order, up to the first pair that raises |
| EccClient.PairsFoldRequests | src/article_domain/infrastructure/api_clients/ecc_api_client.py:28-33 | the requests are the URLs of a prefix of the pairs, in order, and all of them when the loop completes |
| EccClient.PairsFoldStops | src/article_domain/infrastructure/api_clients/ecc_api_client.py:28-48 | the loop stops early only because the last pair requested raised, and that exception is the result |
| EccClient.EccApiClient.constructor | src/article_domain/infrastructure/api_clients/ecc_api_client.py:14-17 | the client starts with the given base URL and token and no request |
| EccClient.EccApiClient.FetchArticlesByGtin | src/article_domain/infrastructure/api_clients/ecc_api_client.py:19-50 | `fetch_articles_by_gtin` returns FetchSpec's result and logs exactly FetchSpec's requests |
| EccClient.EccApiClient.FetchPair | src/article_domain/infrastructure/api_clients/ecc_api_client.py:29-48 | one pair: one request to its URL, and what the answer adds or raises |
| EccClient.ReadArticles | src/article_domain/infrastructure/api_clients/ecc_api_client.py:35-41 | reading `articles` from a decoded answer follows ArticlesOf, whose cases NoArticlesAddNothing, ArticleListIsMapped and NonDictAnswers state |
| EccClient.MapArticleItems | src/article_domain/infrastructure/api_clients/ecc_api_client.py:38 | `[ArticleDataDTO.from_api_response(item) for item in …]` is MapAll of FromApi |
| EccClientProperties.MissingTokenRequestsNothing | src/article_domain/infrastructure/api_clients/ecc_api_client.py:21-23 | without a token the call raises APIError before any request, whatever the pairs, the empty list included |
| EccClientProperties.NoPairsNoRequests | src/article_domain/infrastructure/api_clients/ecc_api_client.py:28-50 | with a token, no pairs means no request and an empty result |
| EccClientProperties.RequestsFollowPairs | src/article_domain/infrastructure/api_clients/ecc_api_client.py:28-48 | one request per pair, in pair order; the loop stops early only at a pair that raised, and that exception is the result |
| EccClientProperties.PairsRunCollects | src/article_domain/infrastructure/api_clients/ecc_api_client.py:28-50 | the loop completes exactly when no pair raises, and then returns every pair's articles concatenated in pair order |
| EccClientProperties.FailedRequestAddsNothing | src/article_domain/infrastructure/api_clients/ecc_api_client.py:43-48 | a failed request or undecodable answer adds nothing, and the loop goes on |
| EccClientProperties.NoArticlesAddNothing | src/article_domain/infrastructure/api_clients/ecc_api_client.py:37-41 | a dict answer whose `articles` is missing, None or empty adds nothing |
| EccClientProperties.ArticleListIsMapped | src/article_domain/infrastructure/api_clients/ecc_api_client.py:37-39 | a non-empty `articles` list adds the mapping of each item, in order |
| EccClientProperties.NonDictAnswers | src/article_domain/infrastructure/api_clients/ecc_api_client.py:37 | a list or str answer raises TypeError when it holds "articles" and adds nothing otherwise; any other non-dict raises TypeError |
| EccClientProperties.ArticleUrlInjective | src/article_domain/infrastructure/api_clients/ecc_api_client.py:25-29 | the URL puts the GTIN before the GLN, and distinct pairs get distinct URLs when the GTIN holds no slash |
| SaveLoop.SaveEachMeaning | src/article_domain/application/article_service.py:27-29 | the save loop saves a prefix of the items once each, in order; it completes exactly when every save completes, and otherwise ends with the last save's exception |
| ArticleService.ArticleApplicationService.constructor | src/article_domain/application/article_service.py:14-16 | the service keeps the repository and the client it is given and has made no call |
| ArticleService.ArticleApplicationService.SyncArticlesFromEcc | src/article_domain/application/article_service.py:18-30 | `sync_articles_from_ecc` returns SyncSpec's outcome, logs SyncSpec's calls and leaves the client's requests as its fetch makes them |
| ArticleService.ArticleApplicationService.SaveArticles | src/article_domain/application/article_service.py:27-29 | the save loop follows SaveEach with the repository's `save_article` |
| ArticleServiceProperties.FetchedOnce | src/article_domain/application/article_service.py:21 | the first call is the one fetch with the given pairs, even for no pairs, and every later call is a save |
| ArticleServiceProperties.FetchErrorPropagates | src/article_domain/application/article_service.py:21 | an exception from the fetch propagates with nothing saved |
| ArticleServiceProperties.NoArticlesNoSaves | src/article_domain/application/article_service.py:23-25 | an empty result causes no `save_article` call |
| ArticleServiceProperties.ArticlesSavedInOrder | src/article_domain/application/article_service.py:27-29 | each article is saved once, in order, up to the first save that raises; that exception propagates and later articles are not saved |
| ArticleRepository.FormatDatetime | src/common/utils/date_utils.py:6-15 | a falsy value gives None; a str is read after "Z" becomes "+00:00"; any other value raises AttributeError at `replace` |
| ArticleRepository.FormatDate | src/common/utils/date_utils.py:18-26 | a date comes back only for a str that parses; anything else gives None |
| ArticleRepository.ImagesText | src/article_domain/infrastructure/persistence/mysql_article_repository.py:129-132 | `json.dumps` raises exactly for a non-empty list of ImageDTO objects |
| ArticleRepository.FirstUnexpected | src/article_domain/infrastructure/persistence/mysql_article_repository.py:178 | the first row key that `ArticleDataDTO(**row)` does not accept, if any |
| ArticleRepository.MySqlArticleRepository.constructor | src/article_domain/infrastructure/persistence/mysql_article_repository.py:20-21 | the repository starts with no statement sent |
| ArticleRepository.MySqlArticleRepository.SaveOutcome | src/article_domain/infrastructure/persistence/mysql_article_repository.py:144-152 | a save raises what building the statement raises; otherwise it succeeds exactly when the server accepts the statement, and a rejected statement raises the DatabaseError whose original exception is the driver error and whose `str` is "Database Error: ", the message, the driver text, then " (Original error: <driver text>)" |
| ArticleRepository.MySqlArticleRepository.RowDto | src/article_domain/infrastructure/persistence/mysql_article_repository.py:178 | `ArticleDataDTO(**row)` fails exactly when the keywords are rejected: a column that is no DTO field, or no `eccId` |
| ArticleRepository.MySqlArticleRepository.ByEccIdOutcome | src/article_domain/infrastructure/persistence/mysql_article_repository.py:187-209 | when the select succeeds, the lookup fails because `fetchone()` is None (no `get`, not a DatabaseError) exactly when no row matches; a rejected statement raises the DatabaseError whose original exception is the driver error and whose `str` is "Database Error: ", the message, the driver text, then " (Original error: <driver text>)" |
| ArticleRepository.MySqlArticleRepository.DeleteOutcome | src/article_domain/infrastructure/persistence/mysql_article_repository.py:215-233 | deleting succeeds exactly when the server accepts the statement, an absent id included; a rejected statement raises the DatabaseError whose original exception is the driver error and whose `str` is "Database Error: ", the message, the driver text, then " (Original error: <driver text>)" |
| ArticleRepository.MySqlArticleRepository.Execute | src/article_domain/infrastructure/persistence/mysql_article_repository.py:145-146 | one statement is sent and the server's answer to it returned |
| ArticleRepository.MySqlArticleRepository.SaveArticle | src/article_domain/infrastructure/persistence/mysql_article_repository.py:119-152 | returns SaveOutcome (the driver error kept as the original exception); sends nothing when building the statement raises, otherwise exactly that statement |
| ArticleRepository.MySqlArticleRepository.GetAllArticles | src/article_domain/infrastructure/persistence/mysql_article_repository.py:154-185 | sends the page statement and returns RowsOutcome of the answer: its rows decoded, or the DatabaseError that keeps the driver error as its original exception |
| ArticleRepository.MySqlArticleRepository.SearchArticles | src/article_domain/infrastructure/persistence/mysql_article_repository.py:235-273 | sends the search statement and returns RowsOutcome of the answer: its rows decoded, or the DatabaseError that keeps the driver error as its original exception |
| ArticleRepository.MySqlArticleRepository.GetArticleByEccId | src/article_domain/infrastructure/persistence/mysql_article_repository.py:187-209 | sends the lookup by eccId and returns ByEccIdOutcome (the driver error kept as the original exception) |
| ArticleRepository.MySqlArticleRepository.DeleteArticle | src/article_domain/infrastructure/persistence/mysql_article_repository.py:215-233 | sends the delete by eccId and returns DeleteOutcome (the driver error kept as the original exception) |
| ArticleRepository.MySqlArticleRepository.ReadRows | src/article_domain/infrastructure/persistence/mysql_article_repository.py:164-183 | equals RowsOutcome: a server error becomes the DatabaseError with the driver error as its original exception; otherwise the rows are decoded in order up to the first failure |
| ArticleRepository.MySqlArticleRepository.RowsOutcome | src/article_domain/infrastructure/persistence/mysql_article_repository.py:164-183 | a rejected statement raises the DatabaseError whose original exception is the driver error and whose `str` is "Database Error: ", the message, the driver text, then " (Original error: <driver text>)"; an accepted select gives its rows decoded, all or the first failure |
| ArticleRepository.DatabaseFailure | src/article_domain/infrastructure/persistence/mysql_article_repository.py:148-150 | the raised DatabaseError keeps the driver error as its original exception, and `str` shows the message, the driver text and the driver text again in parentheses |
| ArticleRepository.MySqlArticleRepository.DecodeRows | src/article_domain/infrastructure/persistence/mysql_article_repository.py:168-178 | the row loop decodes every row in order, and the first row that fails ends it |
| ArticleRepository.MySqlArticleRepository.DecodeRow | src/article_domain/infrastructure/persistence/mysql_article_repository.py:170-178 | one row: the images rewrite, then the DTO |
| ArticleRepository.BuildSearch | src/article_domain/infrastructure/persistence/mysql_article_repository.py:240-250 | the loop that collects conditions and parameters builds SearchStatement |
| ArticleRepositoryProperties.ColumnsAreFields | src/article_domain/infrastructure/persistence/mysql_article_repository.py:123 | the columns are every DTO field, in declaration order, and no name holds "%" |
| ArticleRepositoryProperties.ColumnListPlaceholders | src/article_domain/infrastructure/persistence/mysql_article_repository.py:134 | the column list holds no placeholder |
| ArticleRepositoryProperties.ValuesListPlaceholders | src/article_domain/infrastructure/persistence/mysql_article_repository.py:135 | the VALUES list holds one "%s" per column |
| ArticleRepositoryProperties.UpdateListPlaceholders | src/article_domain/infrastructure/persistence/mysql_article_repository.py:136 | the update list holds one "col = %s" per column |
| ArticleRepositoryProperties.UpsertPlaceholders | src/article_domain/infrastructure/persistence/mysql_article_repository.py:134-140 | the upsert holds two placeholders per column |
| ArticleRepositoryProperties.SaveStatementShape | src/article_domain/infrastructure/persistence/mysql_article_repository.py:123-142 | params are the values twice, twice as many as the columns, matching the placeholder count, and the plain fields are bound as they are |
| ArticleRepositoryProperties.SaveRaisesBeforeExecuting | src/article_domain/infrastructure/persistence/mysql_article_repository.py:125-132 | building the save raises exactly for a truthy non-str `dateChanged` (AttributeError) or a non-empty ImageDTO list (TypeError); the date check comes first |
| ArticleRepositoryProperties.EmptyImagesStoredAsEmptyList | src/article_domain/infrastructure/persistence/mysql_article_repository.py:129-132 | missing or empty images are bound as the text "[]" in both halves of the parameters |
| ArticleRepositoryProperties.PageStatementShape | src/article_domain/infrastructure/persistence/mysql_article_repository.py:157-162 | the parameters are [limit, offset] exactly when a limit is given, and empty otherwise; placeholders match parameters |
| ArticleRepositoryProperties.PageClausePlaceholders | src/article_domain/infrastructure/persistence/mysql_article_repository.py:161 | " LIMIT %s OFFSET %s" holds two placeholders |
| ArticleRepositoryProperties.KeptMembers | src/article_domain/infrastructure/persistence/mysql_article_repository.py:243-246 | the kept filters are exactly the given filters whose value is not None |
| ArticleRepositoryProperties.SearchStatementShape | src/article_domain/infrastructure/persistence/mysql_article_repository.py:240-250 | one parameter per kept filter, in filter order; no WHERE clause exactly when no filter is kept |
| ArticleRepositoryProperties.ConditionPlaceholders | src/article_domain/infrastructure/persistence/mysql_article_repository.py:245-250 | the conditions joined by " AND " hold one placeholder per kept filter |
| ArticleRepositoryProperties.SearchPlaceholders | src/article_domain/infrastructure/persistence/mysql_article_repository.py:240-250 | the search query holds as many placeholders as parameters |
| ArticleRepositoryProperties.RowImagesMeaning | src/article_domain/infrastructure/persistence/mysql_article_repository.py:169-176 | images decode exactly when the column is a non-empty str that `json.loads` accepts; otherwise they become [] |
| ArticleRepositoryProperties.RowFieldsReadBack | src/article_domain/infrastructure/persistence/mysql_article_repository.py:178 | every scalar field of a decoded row reads as the row's column of that name |
| ArticleRepositoryProperties.UnknownColumnRaises | src/article_domain/infrastructure/persistence/mysql_article_repository.py:178 | a row with a column the DTO lacks fails with the TypeError for the first such column |
| ArticleRepositoryProperties.MissingEccIdRaises | src/article_domain/infrastructure/persistence/mysql_article_repository.py:178 | a row without `eccId` fails with the missing-argument TypeError |
| ArticleRepositoryProperties.ColorCodeIsNoField | src/article_domain/infrastructure/persistence/mysql_article_repository.py:79 | the table's `colorCode` column is not a DTO field |
| ArticleRepositoryProperties.TableRowRaises | src/article_domain/infrastructure/persistence/mysql_article_repository.py:79 | so a row that has that column never reads back as a DTO: it fails with TypeError |
| ArticleRepositoryProperties.DriverErrorIsOriginal | src/article_domain/infrastructure/persistence/mysql_article_repository.py:148-150 | `str` of every repository DatabaseError ends with " (Original error: <driver text>)", and its message is the prefix, the context and the driver text |
| ArticleRepositoryProperties.DeleteRejectedKeepsDriverError | src/article_domain/infrastructure/persistence/mysql_article_repository.py:229-231 | a delete the server rejects with `boom` raises DatabaseError("Database Error: Error deleting article <id>: boom") with original exception `boom` |
| EanAvailabilityService.EanAvailabilityApplicationService.constructor | src/product_availability_domain/application/ean_availability_service.py:11-13 | the service keeps its API client and repository and has made no call |
| EanAvailabilityService.EanAvailabilityApplicationService.SyncEanAvailability | src/product_availability_domain/application/ean_availability_service.py:15-37 | `sync_ean_availability` returns SyncSpec's outcome and logs exactly SyncSpec's calls |
| EanAvailabilityService.EanAvailabilityApplicationService.GetEanAvailabilitiesBySupplier | src/product_availability_domain/application/ean_availability_service.py:39-41 | returns the repository's answer for the GLN unchanged |
| EanAvailabilityServiceProperties.FetchedOnceFirst | src/product_availability_domain/application/ean_availability_service.py:25 | the fetch is called exactly once, first, with the request and the EAN list; every later call is a save |
| EanAvailabilityServiceProperties.ApiErrorPropagates | src/product_availability_domain/application/ean_availability_service.py:25 | an API exception propagates with nothing saved |
| EanAvailabilityServiceProperties.NoItemsNoSaves | src/product_availability_domain/application/ean_availability_service.py:27-29 | a missing answer or one without items causes no save |
| EanAvailabilityServiceProperties.ItemsSavedInOrder | src/product_availability_domain/application/ean_availability_service.py:31-33 | each item is saved once, in order, with the same request, up to the first save that raises; that exception propagates |

## Left out

- Concurrency: the `max_workers > 1` branch of `fetch_gtin_stock_data_optimized` (thread pool, `as_completed`, lock) is not modelled; only the sequential branch is.
- HTTP plumbing: the `requests.Session`, the urllib3 retry adapter, timeouts, `time.sleep` pacing and the session clean-up are left out. Endpoints are oracles that answer each request once.
- Logging and `print` output are left out. They change no state.
- The timestamp of a stock entry is opaque. `datetime.fromisoformat` is an oracle that accepts or rejects the text after the "Z" replacement.
- The date formatting in `save_article` is an oracle. So are `json.dumps` and `json.loads`.
- `requests` is taken to raise a `RequestException` for a body that is not JSON. So the `json.JSONDecodeError` handlers of the discovery call and of the ECC client are covered by the request-failure case.
- Database plumbing is left out: connection handling, `CREATE TABLE` DDL, `date_synced`, MySQL type coercion and the auto-increment id.
- The server's rejection of a statement is an oracle on the statement's position, apart from the NOT NULL columns of `pds_gtin_stock`.
- The article table's contents are not modelled. `pds_articles` answers come from the server oracle, so no upsert semantics are proved for articles.
- The batch sink `batch_save_gtin_stock_items` is called by step1_main.py but is not defined by the repository shown. The callback is modelled as a flag plus a logged hand-over of the batch, and its outcome is ignored, as the client ignores it.
- GlobalStockClient.GlobalStockApiClient.FetchGtinStockDataOptimized: does not model what the callback stores. The callback may raise, and the client swallows that, so the client's result is the same either way.
- `chunk_size` of the ECC client is never used. The article and stock DTO field lists are plain records.
- `step2_main.py` passes a `batch_size` keyword that `ArticleApplicationService.__init__` does not accept. That entry point is not part of this model.
- ArticleService.ArticleApplicationService.SyncArticlesFromEcc: the service is typed with the `IArticleRepository` interface. Its repository is modelled as a fixed answer per article, so a repository whose answer depends on earlier saves is not captured. The MySQL repository is modelled separately, as ArticleRepository.
- ArticleService.ArticleApplicationService.SyncArticlesFromEcc: the `if not article_dtos` test also covers None. The client always returns a list or raises, so only the empty list is modelled.
- GtinStockService.GtinStockApplicationService.SyncAllSupplierStock: the `not stock_response_dto` test cannot fire. The client always returns a response or raises, so only the empty item list is modelled.
- EanAvailabilityService.EanAvailabilityApplicationService.SyncEanAvailability: the EAN API client and the EAN repository are not part of this model. Their answers are fixed functions of the arguments, and the availability item type is left abstract.
- EanAvailabilityService.EanAvailabilityApplicationService.SyncEanAvailability: the service imports `SupplierRequestDTO` and `EANAvailabilityResponseDTO`, which `availability_dtos.py` does not define. The request is modelled as the supplier context.
- GtinStockEntity.NewGtinStock: the `SupplierInfo` value object is kept as given. Floating-point prices in the EAN entity are not modelled.
- Python integers are unbounded like Dafny's `int`, so no wrap-around is modelled. JSON floats are not representable: the JSON values have no float case, so the model covers only bodies and rows without floating-point numbers (article prices included).
- GlobalStockClient.GtinBatches: slicing a dict raises TypeError "unhashable type: 'slice'" as before Python 3.12; from 3.12 on it raises KeyError instead, which is not modelled.
- The default messages of the three exception classes are not modelled. Every call site in the modelled code passes its own message.
- JsonModel.Elements: a dict is modelled as its key/value pairs in document order. A pair list with a repeated key, which a decoded Python dict cannot hold, is representable, and iteration and `len` would count that key twice. Lookups keep the last binding, as `json.load` does, and no modelled operation builds such a value.

## Findings

| source | as written | input that shows it | evidently intended | confidence | as-written member | corrected member |
|---|---|---|---|---|---|---|
| src/product_availability_domain/infrastructure/api_clients/global_stock_api_client.py:70-72 | the status is shown only `if e.response`. A `requests` response is falsy whenever its status is an error (its truth value is `ok`), and `raise_for_status` raises only for such statuses, so the message says "N/A" for every 4xx/5xx status | discovery answered with HTTP 404 | show the status code of the attached response whenever there is one | medium, not executed | GlobalStockClient.GlobalStockApiClient.DiscoveryResult, StockFetchProperties.DiscoveryErrorHidesStatus | GlobalStockClient.StatusText |
| step1_main.py:164-166 | the handler of the per-supplier `try` calls `supplier_data.get(...)`. For a record that is not a dict, this raises AttributeError inside the handler, which escapes the loop and ends the whole run at line 186 | a configuration `["acme"]` | count the record as a failed supplier and continue with the next one | high, not executed | Step1Sync.RunRecords, Step1Sync.NonObjectRecordAbortsRun | Step1Sync.RunIntended, Step1Sync.IntendedCountsEveryRecord |
