# Vehicle catalogue: a verified model of its rule code

This project models, in Dafny, the deterministic rule code of a small vehicle-catalogue web application.
The application has two halves.

The Express back end:
- keeps a read-only catalogue of five vehicles and a detail map;
- answers listing requests with filtering, sorting and paging;
- derives the filter facets and the brand-scoped model list;
- looks up one vehicle's detail record;
- validates contact submissions with a first-failure-wins chain of checks;
- records accepted submissions in an in-memory map, under a protocol number built from the date and a process-wide counter.

The React front end:
- validates the contact form with its own schema;
- masks phone numbers as they are typed;
- serialises listing queries into key/value pairs;
- shows a pagination bar, a filter panel, a photo gallery and grouped, collapsible item lists.

Each core source file becomes one Dafny module:

| module | models |
|---|---|
| `VehicleTypes`, `VehicleLogic` | the query engine: `applyFilters`, `applySorting`, `vehicleList`, `getFilterOptions`, `getModelosByMarcas`, `vehicleGetById` and the seed catalogue |
| `VehicleController` | `listHandler`'s validation chain and page adjustment, and `modelosByMarcasHandler` |
| `VehicleDetailController` | `getHandler`'s decision between 400, 404 and 200 |
| `ContactController` | `postHandler`'s validation chain and the defaults it fills in |
| `ContactLogic` | the contact store as the class `ContactStore`, holding the `contacts` map and `protocolCounter` |
| `ContactSchema` | the client's `contactFormSchema` |
| `ContactAgreement` | how the client schema relates to the server chain |
| `PhoneFormat` | `formatPhoneNumber` and the client `generateProtocol` |
| `VehicleService` | `list` and `getModelosByMarcas` building their query pairs with a `URLSearchParams` (class `SearchParams`) |
| `Pagination` | `getPageNumbers`, `startItem` and `endItem` |
| `VehicleFiltersPanel` | the filter handlers, as the class `FiltersPanel` over `localFilters` |
| `Gallery` | the gallery state machine, as the class `PhotoGallery` |
| `VehicleItems` | `groupByCategory`, the toggle state as the class `ItemsView`, and the visible slice |

Supporting modules:
- `Text` writes out the JavaScript string facilities the code uses (`trim`, `\s`, `\D`, `split`, `join`, `parseInt`, `padStart`, `String(n)`).
- `Arrays` writes out `filter`, stable `sort`, `Set` deduplication and `slice`.
- `FirstFailure` states "the answer is the error of the first failed check" once, for both validation chains.

## Where the code and the design description differ

The model follows the code in each case below.

- **Order of the contact checks.** The design description puts all length bounds before the format and enumeration checks. The code checks the name's length and word count, then the e-mail shape before its length, then the phone digits, then the three choices, and the message length last (`ContactController.PostIsFirstFailure`).
- **Range checks on the listing.** The description checks min ≤ max "when both are supplied". The code checks it only when both bounds are truthy. A maximum price of 0 therefore escapes the check, and the request lists nothing (`VehicleController.ZeroMaximumAccepted`, `VehicleController.ZeroMaximumListsNothing`).
- **Protocol length.** The description promises a protocol of 8 date digits and 5 sequence digits. The server's counter is never reset and is padded to *at least* five digits, so from sequence 100000 on the protocol is longer than 13 digits (`ContactLogic.ProtocolFields`).
- **Detail lookup.** The description calls it an exact identifier match, and it is one. The blank check uses the trimmed id, but the lookup uses the id as received, so `" 1"` passes the blank check and is then not found (`VehicleDetailController.PaddedIdNotFound`).
- **Model ordering.** The description calls it locale-aware. It is modelled as character order (see "Left out").

## Model

| member | source | states |
|---|---|---|
| VehicleTypes.ParseSortOrder | backend/src/api/v1/external/vehicle/controller.ts:62-63 | a sort text is accepted exactly when it is the value of one of the seven `SortOrder` members, and then that member is returned |
| VehicleTypes.ParseSortOrderValue | backend/src/api/v1/external/vehicle/controller.ts:62-63 | every member's value parses back to that member |
| VehicleLogic.ApplyFiltersSelects | backend/src/services/vehicle/vehicleLogic.ts:326-358 | the seven filter steps together keep a vehicle iff it passes every supplied criterion. Absent or empty brand, model and transmission lists impose nothing. A transmission list excludes vehicles without a transmission. The result is a subsequence of the input, in its order |
| VehicleLogic.ApplySorting | backend/src/services/vehicle/vehicleLogic.ts:372-392 | the sorted copy is a permutation of the input |
| VehicleLogic.ApplySortingStable | backend/src/services/vehicle/vehicleLogic.ts:372-392 | the sort is stable: the vehicles any order ranks alike with a given one leave in the order they came in |
| VehicleLogic.SameYearKeepsOrder | backend/src/services/vehicle/vehicleLogic.ts:380-383 | under either year order, the vehicles of one year keep their catalogue order |
| VehicleLogic.ApplySortingOrdered | backend/src/services/vehicle/vehicleLogic.ts:372-392 | relevance keeps the input order. Each other order leaves the result monotone in price, year or model, in the direction its name gives |
| VehicleLogic.PriceOrdersReverse | backend/src/services/vehicle/vehicleLogic.ts:376-379 | without equal prices, price-descending is exactly the reverse of price-ascending |
| VehicleLogic.YearOrdersReverse | backend/src/services/vehicle/vehicleLogic.ts:380-383 | without equal years, year-descending is exactly the reverse of year-ascending |
| VehicleLogic.CeilDivSpec | backend/src/services/vehicle/vehicleLogic.ts:424 | the page count is the least number of pages that hold all vehicles, and it is 0 exactly when there are none |
| VehicleLogic.PaginateCounts | backend/src/services/vehicle/vehicleLogic.ts:413-437 | `total` is the size of the filtered set whatever the page, and `totalPages` is its ceiling division by the page size (0 iff `total` is 0). A missing page is 1 and a missing page size is 12 |
| VehicleLogic.PaginateContents | backend/src/services/vehicle/vehicleLogic.ts:426-428 | a page holds at most a page size of vehicles. It is the slice from `(page-1)*pageSize` to `page*pageSize` clipped to the listing, and it is empty past the end |
| VehicleLogic.PageWithinCountIsFilled | backend/src/services/vehicle/vehicleLogic.ts:424-428 | every page from 1 to `totalPages` holds at least one vehicle |
| VehicleLogic.ListingSpec | backend/src/services/vehicle/vehicleLogic.ts:413-421 | the filtered and sorted listing is a permutation of the filtered catalogue. It holds a vehicle iff the catalogue has it and it matches the filters. With no sort given it keeps filter order |
| VehicleLogic.ListVehiclesSound | backend/src/services/vehicle/vehicleLogic.ts:413-437 | every listed vehicle is in the catalogue and satisfies every supplied filter, and `total` counts the filtered set |
| VehicleLogic.HondaToyotaByPrice | backend/src/services/vehicle/vehicleLogic.ts:413-437 | on the seed catalogue, brands Honda and Toyota sorted by ascending price give total 2, one page of 12, with the Corolla (135000) before the Civic (145000) |
| VehicleLogic.Marcas | backend/src/services/vehicle/vehicleLogic.ts:452 | the brand list holds exactly the brands of the vehicles |
| VehicleLogic.Modelos | backend/src/services/vehicle/vehicleLogic.ts:453 | the model list holds exactly the models of the vehicles |
| VehicleLogic.Anos | backend/src/services/vehicle/vehicleLogic.ts:454 | the year list holds exactly the years of the vehicles |
| VehicleLogic.Cambios | backend/src/services/vehicle/vehicleLogic.ts:455-457 | the transmission list holds exactly the non-null transmissions of the vehicles |
| VehicleLogic.DistinctStrings | backend/src/services/vehicle/vehicleLogic.ts:452-453 | deduplicating through a `Set` and sorting gives a strictly ascending list of exactly the strings given |
| VehicleLogic.FacetsSpec | backend/src/services/vehicle/vehicleLogic.ts:451-465 | brands, models and transmissions are strictly ascending, so free of duplicates. Years are strictly descending. Each facet equals, as a set, the catalogue's values of that field |
| VehicleLogic.ModelosOfSpec | backend/src/services/vehicle/vehicleLogic.ts:481-488 | with no brand the answer is the model facet. Otherwise it is the strictly ascending list of exactly the models of the vehicles whose brand is listed |
| VehicleLogic.VehicleGetById | backend/src/services/vehicle/vehicleLogic.ts:504-506 | a detail is found iff the id is a key of the detail map, and then it is the stored record, carrying that id |
| VehicleLogic.DetailCoverage | backend/src/services/vehicle/vehicleLogic.ts:78-312 | only ids "1" and "2" have a detail record, so three of the five catalogue vehicles have none |
| VehicleController.PagingOf | backend/src/api/v1/external/vehicle/controller.ts:36-66 | the paging part of a request is accepted iff the page is at least 1, the size is one of 12, 24, 36, 48 and the sort text names a `SortOrder`. A missing, zero or unreadable page is 1, and such a size is 12 |
| VehicleController.YearsOf | backend/src/api/v1/external/vehicle/controller.ts:78-102 | the years are accepted iff each truthy year reads as a number of at least 1900 and, when both are truthy numbers, min ≤ max. The bounds passed on are the years read |
| VehicleController.PricesOf | backend/src/api/v1/external/vehicle/controller.ts:104-128 | the prices are accepted iff neither is NaN or negative and, when both are non-zero, min ≤ max. The bounds passed on are the prices read |
| VehicleController.CambiosOf | backend/src/api/v1/external/vehicle/controller.ts:130-143 | the transmissions are refused iff some listed one is not among the four known, and the error lists exactly those |
| VehicleController.FiltersOf | backend/src/api/v1/external/vehicle/controller.ts:68-143 | an accepted request's filters are the comma-split, trimmed lists and the parsed bounds it gave |
| VehicleController.Validate | backend/src/api/v1/external/vehicle/controller.ts:34-143 | an accepted request yields a page of at least 1, an allowed page size, a known sort order and the filters it asked for |
| VehicleController.ValidateIsFirstFailure | backend/src/api/v1/external/vehicle/controller.ts:43-143 | a request is refused iff one of the ten checks fails, and the error is that of the first failing check in the handler's order |
| VehicleController.PagingFirstFailure | backend/src/api/v1/external/vehicle/controller.ts:43-66 | page, page size and sort order are refused with the error of the first of them that fails |
| VehicleController.YearsFirstFailure | backend/src/api/v1/external/vehicle/controller.ts:78-102 | minimum year, maximum year and year range are refused in that order |
| VehicleController.PricesFirstFailure | backend/src/api/v1/external/vehicle/controller.ts:104-128 | minimum price, maximum price and price range are refused in that order |
| VehicleController.CambiosFirstFailure | backend/src/api/v1/external/vehicle/controller.ts:130-143 | the transmission check refuses exactly when it fails |
| VehicleController.FiltersFirstFailure | backend/src/api/v1/external/vehicle/controller.ts:78-143 | the filter checks refuse with the error of the first failing one |
| VehicleController.ReadPaging | backend/src/api/v1/external/vehicle/controller.ts:36-66 | the handler's early-return paging checks answer exactly as `PagingOf` |
| VehicleController.ReadYears | backend/src/api/v1/external/vehicle/controller.ts:78-102 | the handler's year statements answer exactly as `YearsOf` |
| VehicleController.ReadPrices | backend/src/api/v1/external/vehicle/controller.ts:104-128 | the handler's price statements answer exactly as `PricesOf` |
| VehicleController.ReadCambios | backend/src/api/v1/external/vehicle/controller.ts:130-143 | the handler's transmission statements answer exactly as `CambiosOf` |
| VehicleController.ReadFilters | backend/src/api/v1/external/vehicle/controller.ts:68-143 | filling the filters field by field answers exactly as `FiltersOf` |
| VehicleController.ListHandler | backend/src/api/v1/external/vehicle/controller.ts:34-170 | the handler answers the first failed check's error, or the listing at the requested page, re-queried at the last page when the request is past it |
| VehicleController.ListPage | backend/src/api/v1/external/vehicle/controller.ts:145-161 | re-querying with another page changes only which slice of the same listing is returned |
| VehicleController.ClampedPage | backend/src/api/v1/external/vehicle/controller.ts:155-164 | after the adjustment a non-empty listing answers a filled page no later than the last one. An empty listing answers no vehicles at the page requested |
| VehicleController.AdjustInRange | backend/src/api/v1/external/vehicle/controller.ts:145-166 | an accepted request gets its own page size, a page of at least 1, and a filled page within range whenever anything matches |
| VehicleController.AdjustMatches | backend/src/api/v1/external/vehicle/controller.ts:145-166 | every vehicle answered is in the catalogue and matches the request's filters |
| VehicleController.ListAnswerInRange | backend/src/api/v1/external/vehicle/controller.ts:34-170 | a successful answer has an allowed page size and an in-range, filled page (or none when nothing matches), and it holds only catalogue vehicles matching the query's filters |
| VehicleController.ZeroMaximumAccepted | backend/src/api/v1/external/vehicle/controller.ts:123 | a minimum price of 5 with a maximum of 0 passes the range check, because 0 is falsy, and both bounds reach the filters |
| VehicleController.ZeroMaximumListsNothing | backend/src/services/vehicle/vehicleLogic.ts:345-351 | with those two bounds applied, no vehicle is listed |
| VehicleController.ModelosHandlerWithoutBrands | backend/src/api/v1/external/vehicle/controller.ts:220-224 | without a `marcas` parameter the handler answers the whole model facet |
| VehicleController.RequestedBrandsJoin | backend/src/api/v1/external/vehicle/controller.ts:220-222 | splitting on commas and trimming recovers a comma-joined list of trimmed, comma-free brands |
| VehicleDetailController.GetHandler | backend/src/api/v1/external/vehicle/detail/controller.ts:32-58 | a missing or blank id is refused with 400 before any lookup. An id not in the detail map gets 404. Otherwise the answer is exactly the stored record for that id |
| VehicleDetailController.BlankIdRefused | backend/src/api/v1/external/vehicle/detail/controller.ts:39-42 | an id of white space only is answered 400 `vehicleIdRequired` |
| VehicleDetailController.FoundExactly | backend/src/api/v1/external/vehicle/detail/controller.ts:44-54 | the handler finds a vehicle iff the id is exactly "1" or "2" |
| VehicleDetailController.PaddedIdNotFound | backend/src/api/v1/external/vehicle/detail/controller.ts:39-52 | a known id with leading white space passes the blank check but is answered 404, because the lookup does not trim |
| ContactController.PostHandler | backend/src/api/v1/external/contact/controller.ts:34-220 | a submission is accepted iff every check passes, and otherwise it is refused with the chain's error. An accepted one passes on name, e-mail, phone, contact preference, vehicle id, vehicle model, subject and message as sent, with the terms accepted. A missing best time becomes "Qualquer horário", missing opt-ins become false, and the client address is recorded |
| ContactController.ClientAddress | backend/src/api/v1/external/contact/controller.ts:219 | the request's address if non-empty, else the socket's remote address if non-empty, else "unknown"; never empty |
| ContactController.PostIsFirstFailure | backend/src/api/v1/external/contact/controller.ts:54-201 | a submission is refused iff one of the twenty checks fails, with the error of the first one in the handler's order |
| ContactController.PresenceFirstFailure | backend/src/api/v1/external/contact/controller.ts:54-97 | the eight required fields, then the privacy terms, are refused in that order |
| ContactController.NameFirstFailure | backend/src/api/v1/external/contact/controller.ts:102-118 | the name is refused when shorter than 3, then when longer than 100, then when it has fewer than two words once trimmed |
| ContactController.AddressFirstFailure | backend/src/api/v1/external/contact/controller.ts:123-145 | the e-mail shape is checked before its length, then the phone's digit count |
| ContactController.ChoicesFirstFailure | backend/src/api/v1/external/contact/controller.ts:150-184 | contact preference, best time (only when given) and subject are refused in that order |
| ContactController.MessageFirstFailure | backend/src/api/v1/external/contact/controller.ts:189-201 | the message is refused below 10 characters, then above 1000 |
| ContactController.FormatFirstFailure | backend/src/api/v1/external/contact/controller.ts:102-201 | the format checks refuse with the first failure among name, address, choices and message, in that order |
| ContactController.TermsBeforeFormats | backend/src/api/v1/external/contact/controller.ts:94-97 | with every required field present but the terms not exactly `true`, the answer is `termosPrivacidadeRequired` whatever the other fields hold |
| ContactController.EmailValidMatchesPattern | backend/src/api/v1/external/contact/controller.ts:123-124 | the e-mail test holds iff the address is non-empty local text, `@`, domain text, `.`, and more text, with no white space and no other `@` |
| ContactController.PostAccepted | backend/src/api/v1/external/contact/controller.ts:54-220 | the parameters of an accepted submission meet every rule the chain enforces |
| ContactController.Post | backend/src/api/v1/external/contact/controller.ts:34-226 | a refused submission is answered 400 with its error and leaves the store unchanged. An accepted one is answered 201 with the new id and the next protocol, and the store gains exactly that record |
| ContactLogic.Confirmation | backend/src/services/contact/contactLogic.ts:114-118 | the confirmation text holds the protocol right after its opening sentence |
| ContactLogic.Record | backend/src/services/contact/contactLogic.ts:88-107 | the stored record copies every parameter verbatim, carries the id and protocol, has status "Novo" and was last updated when it was sent |
| ContactLogic.ContactStore.constructor | backend/src/services/contact/contactLogic.ts:7-13 | the store starts empty with the counter at 1 |
| ContactLogic.ContactStore.GenerateProtocol | backend/src/services/contact/contactLogic.ts:27-34 | the protocol uses the counter's current value, and the counter goes up by exactly one whatever the date |
| ContactLogic.ContactStore.Create | backend/src/services/contact/contactLogic.ts:80-119 | the counter goes up by one. The store gains exactly the new record under its id and every other entry is unchanged. The answer carries the stored id and protocol, and a new id is listed last |
| ContactLogic.ContactStore.List | backend/src/services/contact/contactLogic.ts:133-135 | the list holds exactly the stored records |
| ContactLogic.ContactStore.GetById | backend/src/services/contact/contactLogic.ts:151-153 | a record is found iff its id is stored, and then it is that record |
| ContactLogic.PaddedWidth | backend/src/services/contact/contactLogic.ts:30-32 | zero-padding keeps the number's value, and the width is exact iff the number fits in it |
| ContactLogic.ProtocolFields | backend/src/services/contact/contactLogic.ts:27-34 | a protocol is all digits and reads back as year, month, day and sequence. It is 13 digits long iff the sequence is at most 99999 |
| ContactLogic.ProtocolsDistinct | backend/src/services/contact/contactLogic.ts:27-34 | two different sequence numbers up to 99999 never give the same protocol, whatever the dates |
| ContactSchema.Issues | frontend/src/domain/contact/utils/validation.ts:8-68 | the schema reports exactly the fields whose rule fails |
| ContactSchema.AcceptedIffAllRules | frontend/src/domain/contact/utils/validation.ts:8-68 | the form is accepted iff the name, e-mail, phone, choices, vehicle, message and privacy rules all hold |
| ContactSchema.WithoutWhitespaceDigits | frontend/src/domain/contact/utils/validation.ts:27 | removing white space removes no digit |
| ContactSchema.PhonePatternDigits | frontend/src/domain/contact/utils/validation.ts:27 | a string matching the phone pattern has at least 10 digits |
| ContactSchema.ClientPhoneHasTenDigits | frontend/src/domain/contact/utils/validation.ts:23-29 | a phone the client accepts has at least 10 digits, so the server's digit check passes too |
| ContactAgreement.ClientFieldsPresent | frontend/src/domain/contact/utils/validation.ts:9-51 | a form the client accepts has a non-blank name, e-mail, phone, preference and subject, and at least 10 phone digits |
| ContactAgreement.GroupsPass | backend/src/api/v1/external/contact/controller.ts:54-201 | a body carrying such a form, with non-blank vehicle fields and message, passes every group of server checks |
| ContactAgreement.ServerAcceptsClientForm | frontend/src/domain/contact/utils/validation.ts:8-68 | a form the client accepts is accepted by the server when its e-mail matches the server's pattern and its vehicle fields and message are not blank |
| ContactAgreement.BlankVehicleIdRefused | frontend/src/domain/contact/utils/validation.ts:38 | the client accepts a vehicle id of white space only, and the server refuses that form with `idVeiculoRequired` |
| ContactAgreement.VehicleIdRequiredFirst | backend/src/api/v1/external/contact/controller.ts:54-77 | with name, e-mail, phone and preference present, a blank vehicle id is the error answered |
| PhoneFormat.FormatKeepsDigits | frontend/src/domain/contact/utils/formatters.ts:5-21 | the digits of the output are the first min(n, 11) digits of the input, in order |
| PhoneFormat.FormatCharacters | frontend/src/domain/contact/utils/formatters.ts:5-21 | the output holds only digits, parentheses, spaces and hyphens |
| PhoneFormat.FormatLength | frontend/src/domain/contact/utils/formatters.ts:8-20 | the output is as long as the digits up to 2 digits, 3 longer up to 6 (`(DD) `), 4 longer up to 10 (`(DD) ` and `-`), and 15 characters beyond |
| PhoneFormat.FormatIdempotent | frontend/src/domain/contact/utils/formatters.ts:5-21 | formatting a formatted number changes nothing |
| PhoneFormat.FormattedPhoneAccepted | frontend/src/domain/contact/utils/validation.ts:23-29 | a number with 10 or 11 digits, once formatted, passes the client's phone rule |
| PhoneFormat.ClientProtocolFields | frontend/src/domain/contact/utils/formatters.ts:27-35 | for a calendar date and any random draw, the client protocol is 13 digits: year, month, day and a sequence from 1 to 99999 |
| VehicleService.AppendIfSet | frontend/src/domain/vehicle/services/vehicleService.ts:15-39 | one guarded `append` adds its key's pair exactly when the value is set, and nothing otherwise |
| VehicleService.List | frontend/src/domain/vehicle/services/vehicleService.ts:12-43 | the pairs built are those of every set key, in the fixed key order |
| VehicleService.ListLookup | frontend/src/domain/vehicle/services/vehicleService.ts:15-39 | reading back any key gives the value sent for it: a truthy number, a sort order, or a non-empty list joined by commas. A zero or an empty list gives nothing |
| VehicleService.ListOrdered | frontend/src/domain/vehicle/services/vehicleService.ts:15-39 | keys appear at most once each, in the order page, pageSize, sortBy, marcas, modelos, anoMin, anoMax, precoMin, precoMax, cambios |
| VehicleService.ServerReadsNumber | frontend/src/domain/vehicle/services/vehicleService.ts:15-16 | a number the client sends is read back by the server's `parseInt` as that number, and an unsent one falls back to the server default |
| VehicleService.ServerReadsList | frontend/src/domain/vehicle/services/vehicleService.ts:19-24 | a joined list of trimmed, comma-free entries is split back into the same list, and an empty list reaches the server as no filter |
| VehicleService.ServerReadsPaging | frontend/src/domain/vehicle/services/vehicleService.ts:15-17 | the server reads the page, the page size and the sort order the client sent, and its defaults for those not sent |
| VehicleService.ServerReadsFilters | frontend/src/domain/vehicle/services/vehicleService.ts:19-30 | the server's filters hold the brand, model and transmission lists and the years the client sent |
| VehicleService.ModelosQuery | frontend/src/domain/vehicle/services/vehicleService.ts:55-62 | the query carries the joined brands, and no `marcas` key for an empty list |
| VehicleService.ModelosRoundTrip | frontend/src/domain/vehicle/services/vehicleService.ts:55-62 | the server's handler, reading that query, answers the models of exactly the brands the client asked for, and all models for none |
| Pagination.GetPageNumbers | frontend/src/domain/vehicle/components/VehiclePagination/main.tsx:13-46 | the loops push exactly the window of the current page |
| Pagination.SmallWindow | frontend/src/domain/vehicle/components/VehiclePagination/main.tsx:17-20 | with at most 5 pages every page is listed, and none with 0 pages |
| Pagination.WindowAtStart | frontend/src/domain/vehicle/components/VehiclePagination/main.tsx:22-27 | near the start the bar is 1, 2, 3, 4, an ellipsis, the last page |
| Pagination.WindowAtEnd | frontend/src/domain/vehicle/components/VehiclePagination/main.tsx:28-33 | near the end the bar is 1, an ellipsis, the last four pages |
| Pagination.WindowInMiddle | frontend/src/domain/vehicle/components/VehiclePagination/main.tsx:34-42 | in the middle the bar is 1, an ellipsis, the current page and its neighbours, an ellipsis, the last page |
| Pagination.WindowShape | frontend/src/domain/vehicle/components/VehiclePagination/main.tsx:13-46 | the numbers strictly increase and lie within 1 to `totalPages`. Neighbouring numbers are consecutive, and an ellipsis always hides at least one page. The bar has at most 7 entries and runs from 1 to the last page |
| Pagination.WindowHasCurrentPage | frontend/src/domain/vehicle/components/VehiclePagination/main.tsx:13-46 | a current page within range is always shown |
| Pagination.ItemRange | frontend/src/domain/vehicle/components/VehiclePagination/main.tsx:48-49 | on a page with items, the range shown lies within the items and spans at most a page, ending at the total iff the page reaches it |
| Pagination.ItemsContiguous | frontend/src/domain/vehicle/components/VehiclePagination/main.tsx:48-49 | the next page's range starts right after a full page's range |
| VehicleFiltersPanel.Without | frontend/src/domain/vehicle/components/VehicleFilters/main.tsx:24 | unchecking removes every occurrence of the value and keeps every other value |
| VehicleFiltersPanel.WithoutCounts | frontend/src/domain/vehicle/components/VehicleFilters/main.tsx:24 | unchecking keeps the other values with their multiplicities, in order |
| VehicleFiltersPanel.CheckAppends | frontend/src/domain/vehicle/components/VehicleFilters/main.tsx:22-23 | checking appends the value at the end, keeping what was there and without deduplicating |
| VehicleFiltersPanel.CheckThenUncheck | frontend/src/domain/vehicle/components/VehicleFilters/main.tsx:21-24 | checking a value that was absent and then unchecking it restores the list |
| VehicleFiltersPanel.KeptModelosIff | frontend/src/domain/vehicle/components/VehicleFilters/main.tsx:28-31 | after a brand is unchecked, a model stays iff it was selected, is a non-empty offered model, and some brand remains |
| VehicleFiltersPanel.UncheckLastBrand | frontend/src/domain/vehicle/components/VehicleFilters/main.tsx:21-31 | unchecking the only brand empties both the brands and the models |
| VehicleFiltersPanel.YearInputReads | frontend/src/domain/vehicle/components/VehicleFilters/main.tsx:62-72 | a year typed as digits is stored as that number, and an empty box as no bound |
| VehicleFiltersPanel.FiltersPanel.constructor | frontend/src/domain/vehicle/components/VehicleFilters/main.tsx:12 | the local filters start as the filters given |
| VehicleFiltersPanel.FiltersPanel.MarcaChange | frontend/src/domain/vehicle/components/VehicleFilters/main.tsx:21-40 | only brands and models change: brands toggled, models kept on check and pruned on uncheck. The same value is published |
| VehicleFiltersPanel.FiltersPanel.ModeloChange | frontend/src/domain/vehicle/components/VehicleFilters/main.tsx:42-50 | only the models change, toggled, and the same value is published |
| VehicleFiltersPanel.FiltersPanel.CambioChange | frontend/src/domain/vehicle/components/VehicleFilters/main.tsx:52-60 | only the transmissions change, toggled, and the same value is published |
| VehicleFiltersPanel.FiltersPanel.AnoMinChange | frontend/src/domain/vehicle/components/VehicleFilters/main.tsx:62-66 | only the minimum year changes, to nothing for an empty box or the parsed number, and the same value is published |
| VehicleFiltersPanel.FiltersPanel.AnoMaxChange | frontend/src/domain/vehicle/components/VehicleFilters/main.tsx:68-72 | likewise for the maximum year |
| VehicleFiltersPanel.FiltersPanel.PrecoMinChange | frontend/src/domain/vehicle/components/VehicleFilters/main.tsx:74-78 | only the minimum price changes, to nothing for an empty box or the number read, and the same value is published |
| VehicleFiltersPanel.FiltersPanel.PrecoMaxChange | frontend/src/domain/vehicle/components/VehicleFilters/main.tsx:80-84 | likewise for the maximum price |
| Gallery.PhotoGallery.AllPhotos | frontend/src/pages/VehicleDetail/_impl/VehicleGallery/main.tsx:8 | the main photo comes first, then the photos in order, one more than the photos |
| Gallery.PhotoGallery.constructor | frontend/src/pages/VehicleDetail/_impl/VehicleGallery/main.tsx:4-8 | the gallery opens on the main photo with the lightbox closed |
| Gallery.PhotoGallery.Previous | frontend/src/pages/VehicleDetail/_impl/VehicleGallery/main.tsx:11-13 | the selection moves back one, wrapping from the first to the last, and stays in range |
| Gallery.PhotoGallery.Next | frontend/src/pages/VehicleDetail/_impl/VehicleGallery/main.tsx:15-17 | the selection moves on one, wrapping from the last to the first, and stays in range |
| Gallery.PhotoGallery.ThumbnailClick | frontend/src/pages/VehicleDetail/_impl/VehicleGallery/main.tsx:19-21 | the selection becomes the clicked index, which keeps it in range when the index is |
| Gallery.PhotoGallery.OpenLightbox | frontend/src/pages/VehicleDetail/_impl/VehicleGallery/main.tsx:36 | clicking the photo opens the lightbox and keeps the selection |
| Gallery.PhotoGallery.CloseLightbox | frontend/src/pages/VehicleDetail/_impl/VehicleGallery/main.tsx:102-107 | a click on the backdrop or on the close button closes the lightbox and keeps the selection |
| Gallery.PhotoGallery.KeyDown | frontend/src/pages/VehicleDetail/_impl/VehicleGallery/main.tsx:23-27 | ArrowLeft steps back, ArrowRight steps on, Escape closes the lightbox, and any other key changes nothing |
| Gallery.StepsAreModular | frontend/src/pages/VehicleDetail/_impl/VehicleGallery/main.tsx:11-17 | next is +1 modulo the photo count and previous is −1 modulo it |
| Gallery.StepsStayInRange | frontend/src/pages/VehicleDetail/_impl/VehicleGallery/main.tsx:11-17 | both steps keep an in-range selection in range |
| Gallery.StepsAreInverse | frontend/src/pages/VehicleDetail/_impl/VehicleGallery/main.tsx:11-17 | previous then next, and next then previous, return to the same photo |
| Gallery.NextTimesModular | frontend/src/pages/VehicleDetail/_impl/VehicleGallery/main.tsx:15-17 | k steps forward land k places on, modulo the photo count |
| Gallery.FullTurn | frontend/src/pages/VehicleDetail/_impl/VehicleGallery/main.tsx:15-17 | as many steps forward as there are photos return to the start |
| VehicleItems.GroupByCategory | frontend/src/pages/VehicleDetail/_impl/VehicleItems/main.tsx:9-18 | the loop builds exactly the grouped record |
| VehicleItems.GroupedSpec | frontend/src/pages/VehicleDetail/_impl/VehicleItems/main.tsx:9-18 | there is one group per category, in order of first appearance, and each group holds exactly that category's items in input order |
| VehicleItems.CategoriesMembers | frontend/src/pages/VehicleDetail/_impl/VehicleItems/main.tsx:9-18 | the categories are exactly those of the items, each once |
| VehicleItems.GroupSizesSum | frontend/src/pages/VehicleDetail/_impl/VehicleItems/main.tsx:9-18 | the group sizes add up to the number of items |
| VehicleItems.ItemsView.constructor | frontend/src/pages/VehicleDetail/_impl/VehicleItems/main.tsx:6 | no category starts expanded |
| VehicleItems.ItemsView.ToggleCategory | frontend/src/pages/VehicleDetail/_impl/VehicleItems/main.tsx:20-25 | the named category's flag becomes the negation of its current value and no other entry changes |
| VehicleItems.ToggleFlipsOne | frontend/src/pages/VehicleDetail/_impl/VehicleItems/main.tsx:20-25 | a toggle flips whether the named category is expanded and leaves every other category as it was |
| VehicleItems.ToggleTwice | frontend/src/pages/VehicleDetail/_impl/VehicleItems/main.tsx:20-25 | toggling twice restores whether each category is expanded |
| VehicleItems.VisibleItemsSpec | frontend/src/pages/VehicleDetail/_impl/VehicleItems/main.tsx:37-39 | an expanded group shows all its items. A collapsed one shows its first min(count, 10) and hides some iff it has more than 10 |
| VehicleItems.ButtonLabelSpec | frontend/src/pages/VehicleDetail/_impl/VehicleItems/main.tsx:62-70 | the button shows iff a group has more than 10 items. Collapsed, it offers the number of hidden items |
| VehicleItems.SectionsSpec | frontend/src/pages/VehicleDetail/_impl/VehicleItems/main.tsx:27-84 | a section is rendered iff its item list is non-empty. It has one view per category in order of first appearance, each showing that category's visible items |

## Left out

- I/O. The HTTP layer, the Express and axios plumbing, the response envelope and the `try`/`catch` forwarding to the error middleware are not modelled. Handlers answer a `Result` (or a status and a `Result`).
- Clock and randomness. `new Date()`, `Date.now()`, `Math.random()` and `generateContactId` are parameters: a `Moment` with year, month, day and milliseconds, an id string, and the random draw.
- `parseFloat` is not written out. A price parameter arrives already read, as absent, NaN or a real number (`PriceParam`). On the client it arrives as a whole number or NaN (`JsNumber`).
- Express can deliver a repeated query key as an array. Query values are modelled as single strings.
- JavaScript numbers are modelled as unbounded integers. The precision loss of `parseInt` on numbers above 2^53 is not modelled.
- Prices are whole numbers in the catalogue and real numbers in the filters; no arithmetic is performed on them.
- `localeCompare` is modelled as character-by-character order, as is the default `sort()` of strings. Locale collation is not modelled, and neither is UTF-16 code-unit order for characters outside the Basic Multilingual Plane. String lengths are counted in characters.
- ContactController.PostHandler: the body's fields are taken to be strings and booleans, or missing. The source destructures untyped JSON. A field of another type, such as a number for `nomeCompleto`, makes `.trim()` throw and goes to the error middleware. A non-boolean opt-in, such as `"sim"` for `financiamento`, is stored as sent. Neither case is modelled.
- ContactSchema.FieldOk: zod's `.email()` test is an abstract parameter `isEmail`. The agreement lemmas therefore add the server's e-mail pattern as a hypothesis.
- Only the headline fields of the two detail records are modelled: id, title, price, status and share link. Their galleries, specifications, item lists, history and sale conditions are data, not logic.
- VehicleLogic.ApplySortingOrdered: an unknown sort value falls through to relevance in the source. In the model a sort order is always one of the seven members, because the handler has refused any other text before.
- The `onFiltersChange` callback of the filter panel is modelled as a log of the values handed to it (`changes`). The `useEffect` that resyncs `localFilters` from new props is not modelled.
- The `useModelosByMarcas` query that feeds `availableModelos` is not modelled. The list of models offered is a constant of the panel.
- VehicleItems.GroupByCategory: groups are listed in order of first appearance, which is the key order of a JavaScript object for non-numeric category names. Integer-like category names, which objects list first, are not modelled.
- VehicleItems.GroupByCategory: the grouping record is a plain `{}`, so in the source a category named after an inherited `Object.prototype` member (`constructor`, `toString`, `valueOf`, `hasOwnProperty`, `__proto__` and the like) finds the inherited value, opens no group, and `push` throws. The model treats every category name as a fresh key and opens a group for it.
- VehicleItems.ItemsView.ToggleCategory: the expanded-state record is also a plain `{}`, so in the source a category named after an inherited `Object.prototype` member starts out truthy (shown expanded), and its first toggle stores `false`. The model starts every category collapsed, so its first toggle stores `true`.
- VehicleItems.ToggleTwice: states that every category's expanded flag is restored, not that the map is equal. Two toggles of an absent category leave an explicit `false` where there was no key, and the source's record does the same.
- Gallery.NextTimesModular: proved for up to one full turn (k ≤ n); `FullTurn` states the full turn itself.
- JSX rendering and CSS classes, and the contact form component, are not modelled. So are the other pages and components that only compose the pieces above.
