# DHL request builders, modelled in Dafny

This project models the seven DHL Express request builders of a Laravel
application (`app/RequestBuilders/DHL/`). Each builder holds one private
payload document. Its chained setters write into that document, and
`getData()` returns it for the HTTP layer to send. The builders cover rate
quotes, landed cost, pickup booking, domestic and international shipments,
address validation and shipment tracking.

## How the model is built

- **The document** (`json.dfy`, module `Json`) is a `Json` datatype: null,
  booleans, integers, floats kept as opaque bit patterns, strings, lists and
  string-keyed maps. `Set(d, path, v)` is PHP's `$d[..][..] = v`. Its path
  segments are a key, `[0]` (`First`) or `[]` (`Append`). Like PHP, it
  creates missing or null nodes on the way. `Get` reads a path back, and
  `Elements` is PHP's `$d[..] ?? []` on a list. The lemmas prove three
  things. A write leaves its value readable at its path. Every path that
  parts from it at a pair of different keys is unchanged. An append grows
  the list by exactly one element at its end. Two ghost predicates bundle
  these facts for the method contracts: `Assigned` for a write and
  `Appended` for an append.
- **Schemas** (`schema.dfy`): a `Shape` lists the nodes that an operation's
  setters write through. Each nested builder's `Valid()` says that its
  document conforms to its shape. `ConformsFits` proves that every setter's
  write then passes through arrays only. So PHP's "cannot use a scalar value
  as an array" error and string-offset writes cannot occur, and `Set` is
  exactly PHP's behaviour on these documents.
- **Builders**: each is a class with a `data` field and one method per PHP
  method.
  - Pickup, international, domestic and rating are nested documents
    (`data: Json`). Each setter's `ensures` gives the new document
    (`Assigned`, `Appended` or `AssignedBoth`) and keeps `Valid()`.
  - The shipping builders' `Valid()` also states that the export-declaration
    line items are numbered 1, 2, 3, … in list order.
  - Landed cost, address validation and tracking only write top-level keys.
    Their `data` is a `map<string, Json>`, and each setter ensures
    `data == old(data)[key := value]`.
- **Shared pieces** (`payload.dfy`): the package and account sub-documents,
  the two image options, the line-item numbering, and the
  unit-of-measurement policy `NormaliseUnit`.
- **The rating date** (`calendar.dfy`, `rating.dfy`):
  - `setPlannedShippingDateAndTime` adds four calendar days, sets the time
    to 15:00:00 and formats the result as `Y-m-d\TH:i:s`.
  - The calendar is proleptic Gregorian. `NextDay` and `AddDays` are proved
    against an independent day number. `Format` is proved against its
    inverse `Parse`.
  - Three examples are proved: 2024-01-01, the 2024 leap day, and a year
    end.
- **PHP semantics kept explicit**:
  - `in_array` is PHP's loose comparison, so `LooselyIn` follows PHP 8.
    Under it the boolean `true` equals every string except "" and "0". So
    `setType(true)` passes the address-validation check, and
    `setShipmentUnitOfMeasurement(true)` stores `true`.
  - PHP 8 treats an optional parameter that comes before a required one as
    required. Those parameters have no default here: the pickup
    `$addressLine2`/`$addressLine3`, and international
    `setShipmentIsCustomsDeclarable`'s `$boolVal` and
    `setShipmentCustomsDeclarableData`'s `$declaredValue`.
  - Defaults that PHP honours are Dafny default arguments.
- **Behaviours modelled as the code has them**:
  - Pickup `setShipmentProductCode` stores the product code as
    `localProductCode` and does not use its second argument.
  - A pickup setter that writes `shipmentDetails[0]` before any
    `setShipmentProductCode` creates that first shipment. A later product
    code is then appended as `shipmentDetails[1]`.
  - The rating and landed-cost builders store the unit of measurement
    verbatim. Only the pickup, domestic and international builders
    normalise it to "metric".
  - No unit setter ever fails. Only the address-validation `type` fails,
    as an `Outcome` carrying `InvalidArgumentException`.
- **Snapshots**: `GetData` returns a value. Later setter calls cannot
  change a document that was already returned, which matches PHP's
  copy-on-assignment arrays.

## Model

| member | source | states |
|---|---|---|
| `Json.GetSet` | app/RequestBuilders/DHL/DhlPickUpRequestBuilder.php:195 | a write along a key/`[0]` path, with missing or null nodes created on the way, leaves exactly the written value readable at that path |
| `Json.GetSetOther` | app/RequestBuilders/DHL/DhlPickUpRequestBuilder.php:195 | a write leaves the value at every path that parts from it at a pair of different keys unchanged |
| `Json.GetSetBelow` | app/RequestBuilders/DHL/DhlInternationalShippingtBuilder.php:179-184 | after a whole sub-document is replaced, every path below it reads what the new sub-document holds there, and nothing of the old one |
| `Json.GetSetAppend` | app/RequestBuilders/DHL/DhlPickUpRequestBuilder.php:180-183 | `[]` makes the list at the path its old elements (none if it was missing) followed by the new value |
| `Json.SetAssigns` | app/RequestBuilders/DHL/DhlPickUpRequestBuilder.php:19 | a path write yields `Assigned`: the value is at the path and every parting path is unchanged |
| `Json.SetAppends` | app/RequestBuilders/DHL/DhlPickUpRequestBuilder.php:243-250 | an append yields `Appended`: the list grew by exactly the value at its end and every parting path is unchanged |
| `Json.AppendEachInOrder` | app/RequestBuilders/DHL/DhlPickUpRequestBuilder.php:241-252 | n appending calls leave the earlier elements and then the n new ones in call order |
| `Json.SetTwice` | app/RequestBuilders/DHL/DhlPickUpRequestBuilder.php:17-69 | a second write to the same path replaces the first: the last call wins |
| `Json.SetCommute` | app/RequestBuilders/DHL/DhlPickUpRequestBuilder.php:71-176 | writes to parting paths commute, so setters on different roles and parts are independent of call order |
| `Json.Set` | app/RequestBuilders/DHL/DhlPickUpRequestBuilder.php:178-197 | PHP's nested `$d[..][0][..] = v` and `$d[..][] = v`, creating missing or null nodes as empty arrays on the way. It has no contract of its own: `GetSet` puts the value at the path, `GetSetOther` keeps every parting path, and `GetSetAppend` grows the list by exactly the value |
| `Json.FalseBecomesArray` | app/RequestBuilders/DHL/DhlPickUpRequestBuilder.php:195 | a key written into `false` turns it into an array holding only that key, as PHP 8 does |
| `Json.Elements` | app/RequestBuilders/DHL/DhlDomesticShippingtBuilder.php:78 | `?? []`: the list at the path when there is one, and the empty list when the path is missing or holds no list; `GetSetAppend` shows that an append makes it the old elements followed by the new one |
| `Json.LooselyIn` | app/RequestBuilders/DHL/DhlPickUpRequestBuilder.php:232-235 | `in_array` over words of lower-case letters finds the value exactly when it is loosely equal (`LooseEqualsWord`, PHP 8's `==` against a string without digits: null as "", a bool by the string's truth value, an int or float through its string form, a string as text, an array never) to one of the words. `Payload.NormaliseUnit` and `AddressValidation.AcceptedTypes` build on it |
| `Json.LooseEqualsByKind` | app/RequestBuilders/DHL/DhlAddressValidationRequestBuilder.php:21 | for lower-case words, loose equality with some word holds exactly for a string that is one of the words and for `true`: null, `false`, numbers and arrays equal none |
| `Schema.ConformsFits` | app/RequestBuilders/DHL/DhlPickUpRequestBuilder.php:195 | in a document that keeps its schema, every write path the schema provides for passes only through arrays, so PHP never hits a scalar |
| `Schema.SetConforms` | app/RequestBuilders/DHL/DhlPickUpRequestBuilder.php:243 | a write the schema provides for, of a value of the right shape, keeps the document within its schema |
| `Schema.SchemaWrite` | app/RequestBuilders/DHL/DhlInternationalShippingtBuilder.php:42 | a setter write on a schema-conforming document is accepted by PHP, keeps the schema and is an `Assigned` update |
| `Schema.SchemaAppend` | app/RequestBuilders/DHL/DhlInternationalShippingtBuilder.php:198 | a setter append on a schema-conforming document is accepted by PHP, keeps the schema and is an `Appended` update |
| `Payload.NormaliseUnit` | app/RequestBuilders/DHL/DhlPickUpRequestBuilder.php:232-235 | the stored unit is always one that `in_array` finds among "metric" and "imperial"; such an input is kept, anything else becomes "metric" |
| `Payload.NormaliseUnitIdempotent` | app/RequestBuilders/DHL/DhlInternationalShippingtBuilder.php:212-215 | normalising an already normalised unit changes nothing |
| `Payload.NumberingExtends` | app/RequestBuilders/DHL/DhlInternationalShippingtBuilder.php:196-198 | appending an item numbered count + 1 to a list numbered 1..count gives a list numbered 1..count + 1 |
| `Calendar.NextDay` | app/RequestBuilders/DHL/DhlRatingRequestBuilder.php:55 | the next day is a valid date exactly one day number later, across month and year ends and leap days |
| `Calendar.AddDays` | app/RequestBuilders/DHL/DhlRatingRequestBuilder.php:55 | adding n days gives a valid date exactly n day numbers later |
| `Calendar.AddDaysUnique` | app/RequestBuilders/DHL/DhlRatingRequestBuilder.php:55 | that date is the only valid date n day numbers later |
| `Calendar.DayNumberInjective` | app/RequestBuilders/DHL/DhlRatingRequestBuilder.php:55 | two valid dates with the same day number are the same date |
| `Calendar.YearText` | app/RequestBuilders/DHL/DhlRatingRequestBuilder.php:57 | `Y` is at least four characters, and exactly four for a year from 0 to 9999 |
| `Calendar.Format` | app/RequestBuilders/DHL/DhlRatingRequestBuilder.php:57 | `Y-m-d\TH:i:s` is the year followed by exactly fifteen characters; `ParseFormat` reads it back as the same date-time, and the `RatingRequest` examples pin exact texts |
| `Calendar.ParseFormat` | app/RequestBuilders/DHL/DhlRatingRequestBuilder.php:57 | the `Y-m-d\TH:i:s` text of a valid date-time reads back as that date-time, so the format loses nothing |
| `RatingRequest.AdjustedShippingTime` | app/RequestBuilders/DHL/DhlRatingRequestBuilder.php:55 | the adjusted time is valid, four day numbers after the input date, at 15:00:00 |
| `RatingRequest.PlannedShippingText` | app/RequestBuilders/DHL/DhlRatingRequestBuilder.php:55-57 | the stored text reads back as the adjusted date-time, and is its year followed by exactly fifteen characters: nineteen in all for a year from 0 to 9999 |
| `RatingRequest.AdjustedShippingDateUnique` | app/RequestBuilders/DHL/DhlRatingRequestBuilder.php:55 | any valid date four days on, at 15:00:00, is the adjusted time |
| `RatingRequest.TimeOfDayIgnored` | app/RequestBuilders/DHL/DhlRatingRequestBuilder.php:55 | two inputs on the same date give the same stored text, whatever their times of day |
| `RatingRequest.NewYearsDayExample` | app/RequestBuilders/DHL/DhlRatingRequestBuilder.php:53-60 | 2024-01-01T10:00:00 is stored as "2024-01-05T15:00:00" |
| `RatingRequest.LeapYearExample` | app/RequestBuilders/DHL/DhlRatingRequestBuilder.php:53-60 | 2024-02-27 crosses the leap day and is stored as "2024-03-02T15:00:00" |
| `RatingRequest.YearEndExample` | app/RequestBuilders/DHL/DhlRatingRequestBuilder.php:53-60 | 2023-12-30T23:59:59 crosses the year end and is stored as "2024-01-03T15:00:00" |
| `RatingRequest.DhlRatingRequestBuilder.constructor` | app/RequestBuilders/DHL/DhlRatingRequestBuilder.php:7 | the document starts empty |
| `RatingRequest.DhlRatingRequestBuilder.SetShipperDetails` | app/RequestBuilders/DHL/DhlRatingRequestBuilder.php:9-19 | `customerDetails.shipperDetails` becomes the flat address whose province is the country code and whose first line is the city, postal code "" by default; all else kept |
| `RatingRequest.DhlRatingRequestBuilder.SetReceiverDetails` | app/RequestBuilders/DHL/DhlRatingRequestBuilder.php:21-30 | `customerDetails.receiverDetails` becomes the flat address whose first line is the city and which has no province; all else kept |
| `RatingRequest.DhlRatingRequestBuilder.SetAccounts` | app/RequestBuilders/DHL/DhlRatingRequestBuilder.php:42-51 | `accounts` becomes the one-entry list `{typeCode, number}`, "shipper" and "" by default; all else kept |
| `RatingRequest.DhlRatingRequestBuilder.SetPlannedShippingDateAndTime` | app/RequestBuilders/DHL/DhlRatingRequestBuilder.php:53-60 | `plannedShippingDateAndTime` becomes the text of the input moved four days on at 15:00:00; all else kept |
| `RatingRequest.DhlRatingRequestBuilder.SetUnitOfMeasurement` | app/RequestBuilders/DHL/DhlRatingRequestBuilder.php:77-81 | `unitOfMeasurement` becomes the argument as given ("metric" by default), with no normalisation; all else kept |
| `RatingRequest.DhlRatingRequestBuilder.SetIsCustomsDeclarable` | app/RequestBuilders/DHL/DhlRatingRequestBuilder.php:95-99 | overwrites `isCustomsDeclarable` alone |
| `RatingRequest.DhlRatingRequestBuilder.SetRequestAllValueAddedServices` | app/RequestBuilders/DHL/DhlRatingRequestBuilder.php:111-115 | overwrites `requestAllValueAddedServices` alone |
| `RatingRequest.DhlRatingRequestBuilder.SetReturnStandardProductsOnly` | app/RequestBuilders/DHL/DhlRatingRequestBuilder.php:117-121 | overwrites `returnStandardProductsOnly` alone |
| `RatingRequest.DhlRatingRequestBuilder.SetNextBusinessDay` | app/RequestBuilders/DHL/DhlRatingRequestBuilder.php:123-127 | overwrites `nextBusinessDay` alone |
| `RatingRequest.DhlRatingRequestBuilder.SetPackages` | app/RequestBuilders/DHL/DhlRatingRequestBuilder.php:143-156 | `packages` becomes a list of exactly one package, 1 × 1 × 1 by default; all else kept |
| `RatingRequest.DhlRatingRequestBuilder.GetData` | app/RequestBuilders/DHL/DhlRatingRequestBuilder.php:159-162 | returns the document as accumulated |
| `PickUpRequest.DhlPickUpRequestBuilder.constructor` | app/RequestBuilders/DHL/DhlPickUpRequestBuilder.php:7 | the document starts empty and within the pickup schema |
| `PickUpRequest.DhlPickUpRequestBuilder.SetPlannedPickupDateAndTime` | app/RequestBuilders/DHL/DhlPickUpRequestBuilder.php:17-21 | overwrites `plannedPickupDateAndTime` alone |
| `PickUpRequest.DhlPickUpRequestBuilder.SetCloseTime` | app/RequestBuilders/DHL/DhlPickUpRequestBuilder.php:33-37 | overwrites `closeTime` alone |
| `PickUpRequest.DhlPickUpRequestBuilder.SetLocation` | app/RequestBuilders/DHL/DhlPickUpRequestBuilder.php:43-47 | overwrites `location` alone |
| `PickUpRequest.DhlPickUpRequestBuilder.SetLocationType` | app/RequestBuilders/DHL/DhlPickUpRequestBuilder.php:53-57 | overwrites `locationType` alone |
| `PickUpRequest.DhlPickUpRequestBuilder.SetRemark` | app/RequestBuilders/DHL/DhlPickUpRequestBuilder.php:65-69 | overwrites `remark` alone, "" by default |
| `PickUpRequest.DhlPickUpRequestBuilder.SetShipperPostalDetails` | app/RequestBuilders/DHL/DhlPickUpRequestBuilder.php:71-83 | replaces `customerDetails.shipperDetails.postalAddress` with the address without `provinceCode`; other roles and parts kept |
| `PickUpRequest.DhlPickUpRequestBuilder.SetShipperContactInformationDetails` | app/RequestBuilders/DHL/DhlPickUpRequestBuilder.php:85-95 | replaces `customerDetails.shipperDetails.contactInformation`; everything else kept |
| `PickUpRequest.DhlPickUpRequestBuilder.SetReceiverPostalDetails` | app/RequestBuilders/DHL/DhlPickUpRequestBuilder.php:97-110 | replaces `customerDetails.receiverDetails.postalAddress` with the address with `provinceCode`; everything else kept |
| `PickUpRequest.DhlPickUpRequestBuilder.SetReceiverContactInformationDetails` | app/RequestBuilders/DHL/DhlPickUpRequestBuilder.php:112-122 | replaces `customerDetails.receiverDetails.contactInformation`; everything else kept |
| `PickUpRequest.DhlPickUpRequestBuilder.SetBookingRequestPostalAddressDetails` | app/RequestBuilders/DHL/DhlPickUpRequestBuilder.php:124-137 | replaces `customerDetails.bookingRequestorDetails.postalAddress` with the address with `provinceCode`; everything else kept |
| `PickUpRequest.DhlPickUpRequestBuilder.SetBookingRequestContactInformationDetails` | app/RequestBuilders/DHL/DhlPickUpRequestBuilder.php:139-149 | replaces `customerDetails.bookingRequestorDetails.contactInformation`; everything else kept |
| `PickUpRequest.DhlPickUpRequestBuilder.SetPickUpRequestPostalAddressDetails` | app/RequestBuilders/DHL/DhlPickUpRequestBuilder.php:151-164 | replaces `customerDetails.pickupDetails.postalAddress` with the address with `provinceCode`; everything else kept |
| `PickUpRequest.DhlPickUpRequestBuilder.SetPickUpRequestContactInformationDetails` | app/RequestBuilders/DHL/DhlPickUpRequestBuilder.php:166-176 | replaces `customerDetails.pickupDetails.contactInformation`; everything else kept |
| `PickUpRequest.DhlPickUpRequestBuilder.SetShipmentProductCode` | app/RequestBuilders/DHL/DhlPickUpRequestBuilder.php:178-185 | `shipmentDetails` grows by exactly one shipment whose `localProductCode` is the product code; earlier shipments and all else kept |
| `PickUpRequest.FirstShipmentWrite` | app/RequestBuilders/DHL/DhlPickUpRequestBuilder.php:193-252 | any write below `shipmentDetails[0]` leaves every later shipment as it was; the list keeps its length, or becomes one shipment long when it was missing or empty |
| `PickUpRequest.DhlPickUpRequestBuilder.SetShipmentIsCustomsDeclarable` | app/RequestBuilders/DHL/DhlPickUpRequestBuilder.php:193-197 | writes `isCustomsDeclarable` of `shipmentDetails[0]`, creating that entry if absent; every later shipment and all else kept |
| `PickUpRequest.DhlPickUpRequestBuilder.SetShipmentDeclaredValue` | app/RequestBuilders/DHL/DhlPickUpRequestBuilder.php:205-209 | writes `declaredValue` of `shipmentDetails[0]`, creating that entry if absent; every later shipment and all else kept |
| `PickUpRequest.DhlPickUpRequestBuilder.SetShipmentDeclaredValueCurrency` | app/RequestBuilders/DHL/DhlPickUpRequestBuilder.php:217-221 | writes `declaredValueCurrency` of `shipmentDetails[0]`, creating that entry if absent; every later shipment and all else kept |
| `PickUpRequest.DhlPickUpRequestBuilder.SetShipmentUnitOfMeasurement` | app/RequestBuilders/DHL/DhlPickUpRequestBuilder.php:230-239 | writes the normalised unit to `shipmentDetails[0].unitOfMeasurement`, "metric" by default, never failing; every later shipment and all else kept |
| `PickUpRequest.DhlPickUpRequestBuilder.SetShipmentPackages` | app/RequestBuilders/DHL/DhlPickUpRequestBuilder.php:241-252 | appends the package to `shipmentDetails[0].packages`, earlier packages kept in order; every later shipment and all else kept |
| `PickUpRequest.DhlPickUpRequestBuilder.SetShipmentAccountsDetails` | app/RequestBuilders/DHL/DhlPickUpRequestBuilder.php:255-259 | top-level `accounts` and `shipmentDetails[0].accounts` both become `[{typeCode: "shipper", number: ""}]`, overwriting earlier accounts; every later shipment kept |
| `PickUpRequest.DhlPickUpRequestBuilder.GetData` | app/RequestBuilders/DHL/DhlPickUpRequestBuilder.php:261-264 | returns the document as accumulated |
| `PickUpRequest.DhlPickUpRequestBuilder.SetAccounts` | app/RequestBuilders/DHL/DhlPickUpRequestBuilder.php:266-275 | `accounts` becomes the one-entry list `{typeCode, number}`, "shipper" and "" by default; all else kept |
| `InternationalShipping.IncotermIdempotent` | app/RequestBuilders/DHL/DhlInternationalShippingtBuilder.php:171-175 | writing the incoterm twice gives the document writing it once gives |
| `InternationalShipping.DhlInternationalShippingtBuilder.constructor` | app/RequestBuilders/DHL/DhlInternationalShippingtBuilder.php:7 | the document starts empty, within the schema, with no line items |
| `InternationalShipping.DhlInternationalShippingtBuilder.SetPlannedShippingDateAndTime` | app/RequestBuilders/DHL/DhlInternationalShippingtBuilder.php:17-21 | overwrites `plannedShippingDateAndTime` alone, verbatim |
| `InternationalShipping.DhlInternationalShippingtBuilder.SetProductCode` | app/RequestBuilders/DHL/DhlInternationalShippingtBuilder.php:27-31 | overwrites `productCode` alone |
| `InternationalShipping.DhlInternationalShippingtBuilder.SetPickup` | app/RequestBuilders/DHL/DhlInternationalShippingtBuilder.php:40-45 | writes `pickup.isRequested`, keeping the other pickup entries |
| `InternationalShipping.DhlInternationalShippingtBuilder.SetPickupCloseTime` | app/RequestBuilders/DHL/DhlInternationalShippingtBuilder.php:47-52 | writes `pickup.closeTime`, keeping the other pickup entries |
| `InternationalShipping.DhlInternationalShippingtBuilder.SetPickupPostalAddress` | app/RequestBuilders/DHL/DhlInternationalShippingtBuilder.php:54-64 | replaces `pickup.pickupDetails.postalAddress`, the second argument as `addressLine1`; other pickup entries kept |
| `InternationalShipping.DhlInternationalShippingtBuilder.SetPickupContactInfo` | app/RequestBuilders/DHL/DhlInternationalShippingtBuilder.php:66-75 | replaces `pickup.pickupDetails.contactInformation`; other pickup entries kept |
| `InternationalShipping.DhlInternationalShippingtBuilder.SetOutputImageProperties` | app/RequestBuilders/DHL/DhlInternationalShippingtBuilder.php:88-104 | writes `encodingFormat` and exactly the invoice and waybill image options sharing `isRequested`; defaults false, "pdf", true |
| `InternationalShipping.DhlInternationalShippingtBuilder.SetShipperPostalDetails` | app/RequestBuilders/DHL/DhlInternationalShippingtBuilder.php:107-116 | replaces the shipper postal address; everything else kept |
| `InternationalShipping.DhlInternationalShippingtBuilder.SetShipperContactInformationDetails` | app/RequestBuilders/DHL/DhlInternationalShippingtBuilder.php:118-126 | replaces the shipper contact; everything else kept |
| `InternationalShipping.DhlInternationalShippingtBuilder.SetReceiverPostalDetails` | app/RequestBuilders/DHL/DhlInternationalShippingtBuilder.php:128-137 | replaces the receiver postal address; everything else kept |
| `InternationalShipping.DhlInternationalShippingtBuilder.SetReceiverContactInformationDetails` | app/RequestBuilders/DHL/DhlInternationalShippingtBuilder.php:139-148 | replaces the receiver contact, whose `email` is null by default; everything else kept |
| `InternationalShipping.DhlInternationalShippingtBuilder.SetShipmentIsCustomsDeclarable` | app/RequestBuilders/DHL/DhlInternationalShippingtBuilder.php:157-162 | writes `content.isCustomsDeclarable` and `content.description`; other content keys kept |
| `InternationalShipping.DhlInternationalShippingtBuilder.SetShipmentCustomsDeclarableData` | app/RequestBuilders/DHL/DhlInternationalShippingtBuilder.php:164-169 | writes `content.declaredValue` and `content.declaredValueCurrency`; other content keys kept |
| `InternationalShipping.DhlInternationalShippingtBuilder.SetShipmentIncoterm` | app/RequestBuilders/DHL/DhlInternationalShippingtBuilder.php:171-175 | writes "DAP" at `content.incoterm` alone |
| `InternationalShipping.DhlInternationalShippingtBuilder.SetExportDeclarationInvoice` | app/RequestBuilders/DHL/DhlInternationalShippingtBuilder.php:177-186 | `content.exportDeclaration` becomes exactly `{invoice: {date, number}}`, so no line items remain |
| `InternationalShipping.DhlInternationalShippingtBuilder.SetExportDeclarationLineItem` | app/RequestBuilders/DHL/DhlInternationalShippingtBuilder.php:194-201 | appends the caller's item with `number` = prior line-item count + 1, overriding theirs; items stay numbered 1..n |
| `InternationalShipping.DhlInternationalShippingtBuilder.SetShipmentUnitOfMeasurement` | app/RequestBuilders/DHL/DhlInternationalShippingtBuilder.php:210-219 | writes the normalised unit at `content.unitOfMeasurement`, "metric" by default; all else kept |
| `InternationalShipping.DhlInternationalShippingtBuilder.SetShipmentPackages` | app/RequestBuilders/DHL/DhlInternationalShippingtBuilder.php:221-234 | `content.packages` becomes a list of exactly the one package; repeated calls do not accumulate |
| `InternationalShipping.DhlInternationalShippingtBuilder.SetAccounts` | app/RequestBuilders/DHL/DhlInternationalShippingtBuilder.php:236-245 | `accounts` becomes the one-entry list `{number, typeCode}`, "shipper" and "" by default; all else kept |
| `InternationalShipping.DhlInternationalShippingtBuilder.GetData` | app/RequestBuilders/DHL/DhlInternationalShippingtBuilder.php:248-251 | returns the document as accumulated |
| `DomesticShipping.DhlDomesticShippingtBuilder.constructor` | app/RequestBuilders/DHL/DhlDomesticShippingtBuilder.php:7 | the document starts empty, within the schema, with no line items |
| `DomesticShipping.DhlDomesticShippingtBuilder.SetPlannedShippingDateAndTime` | app/RequestBuilders/DHL/DhlDomesticShippingtBuilder.php:17-21 | overwrites `plannedShippingDateAndTime` alone, verbatim |
| `DomesticShipping.DhlDomesticShippingtBuilder.SetPickup` | app/RequestBuilders/DHL/DhlDomesticShippingtBuilder.php:30-34 | writes `pickup.isRequested`, keeping the other pickup entries |
| `DomesticShipping.DhlDomesticShippingtBuilder.SetOutputImageProperties` | app/RequestBuilders/DHL/DhlDomesticShippingtBuilder.php:47-63 | writes `encodingFormat` and exactly the invoice and waybill image options; defaults true (hidden account number), "pdf", true |
| `DomesticShipping.DhlDomesticShippingtBuilder.SetExportDeclarationInvoice` | app/RequestBuilders/DHL/DhlDomesticShippingtBuilder.php:65-74 | `content.exportDeclaration` becomes exactly `{invoice: {date, number}}`, so no line items remain |
| `DomesticShipping.DhlDomesticShippingtBuilder.SetExportDeclarationLineItem` | app/RequestBuilders/DHL/DhlDomesticShippingtBuilder.php:76-83 | appends the caller's item with `number` = prior line-item count + 1, overriding theirs; items stay numbered 1..n |
| `DomesticShipping.DhlDomesticShippingtBuilder.SetProductCode` | app/RequestBuilders/DHL/DhlDomesticShippingtBuilder.php:90-94 | overwrites `productCode` alone |
| `DomesticShipping.DhlDomesticShippingtBuilder.SetShipperPostalDetails` | app/RequestBuilders/DHL/DhlDomesticShippingtBuilder.php:97-107 | replaces the whole shipper postal address, `addressLine2` null by default; everything else kept |
| `DomesticShipping.DhlDomesticShippingtBuilder.SetShipperContactInformationDetails` | app/RequestBuilders/DHL/DhlDomesticShippingtBuilder.php:109-117 | replaces the shipper contact; everything else kept |
| `DomesticShipping.DhlDomesticShippingtBuilder.SetReceiverPostalDetails` | app/RequestBuilders/DHL/DhlDomesticShippingtBuilder.php:119-129 | replaces the whole receiver postal address, `addressLine2` null by default; everything else kept |
| `DomesticShipping.DhlDomesticShippingtBuilder.SetReceiverContactInformationDetails` | app/RequestBuilders/DHL/DhlDomesticShippingtBuilder.php:131-140 | replaces the receiver contact; everything else kept |
| `DomesticShipping.DhlDomesticShippingtBuilder.SetShipmentIsCustomsDeclarable` | app/RequestBuilders/DHL/DhlDomesticShippingtBuilder.php:149-153 | writes `content.isCustomsDeclarable` (false by default) alone; export declaration and packages kept |
| `DomesticShipping.DhlDomesticShippingtBuilder.SetShipmentCustomsDeclarableData` | app/RequestBuilders/DHL/DhlDomesticShippingtBuilder.php:155-160 | writes `content.declaredValue` and `content.declaredValueCurrency`; other content keys kept |
| `DomesticShipping.DhlDomesticShippingtBuilder.SetShipmentUnitOfMeasurement` | app/RequestBuilders/DHL/DhlDomesticShippingtBuilder.php:168-177 | writes the normalised unit at `content.unitOfMeasurement`, "metric" by default; all else kept |
| `DomesticShipping.DhlDomesticShippingtBuilder.SetShipmentPackages` | app/RequestBuilders/DHL/DhlDomesticShippingtBuilder.php:179-192 | `content.packages` becomes a list of exactly the one package; repeated calls do not accumulate |
| `DomesticShipping.DhlDomesticShippingtBuilder.SetAccounts` | app/RequestBuilders/DHL/DhlDomesticShippingtBuilder.php:194-203 | `accounts` becomes the one-entry list `{typeCode, number}`, "shipper" and "" by default; all else kept |
| `DomesticShipping.DhlDomesticShippingtBuilder.SetPackageDescription` | app/RequestBuilders/DHL/DhlDomesticShippingtBuilder.php:205-209 | writes `content.description` alone; export declaration and packages kept |
| `DomesticShipping.DhlDomesticShippingtBuilder.GetData` | app/RequestBuilders/DHL/DhlDomesticShippingtBuilder.php:211-214 | returns the document as accumulated |
| `LandedCost.DhlLandCostBuilder.constructor` | app/RequestBuilders/DHL/DhlLandCostBuilder.php:7 | the document starts empty |
| `LandedCost.DhlLandCostBuilder.SetAccounts` | app/RequestBuilders/DHL/DhlLandCostBuilder.php:17-26 | `accounts` becomes exactly `[{typeCode, number}]`, both required; no other key changes |
| `LandedCost.DhlLandCostBuilder.SetCustomsAndInsuranceDetails` | app/RequestBuilders/DHL/DhlLandCostBuilder.php:36-42 | writes exactly the keys `isCustomsDeclarable`, `isDTPRequested`, `isInsuranceRequested`; no other key changes |
| `LandedCost.DhlLandCostBuilder.SetProductCode` | app/RequestBuilders/DHL/DhlLandCostBuilder.php:50-54 | overwrites `productCode` alone |
| `LandedCost.DhlLandCostBuilder.SetLocalProductCode` | app/RequestBuilders/DHL/DhlLandCostBuilder.php:62-66 | overwrites `localProductCode` alone |
| `LandedCost.DhlLandCostBuilder.SetUnitOfMeasurement` | app/RequestBuilders/DHL/DhlLandCostBuilder.php:74-78 | overwrites `unitOfMeasurement` alone with the argument as given, no normalisation |
| `LandedCost.DhlLandCostBuilder.SetCurrencyCode` | app/RequestBuilders/DHL/DhlLandCostBuilder.php:86-90 | overwrites `currencyCode` alone |
| `LandedCost.DhlLandCostBuilder.SetShipperDetails` | app/RequestBuilders/DHL/DhlLandCostBuilder.php:100-108 | `shipperDetails` becomes the flat map of exactly postal code, city and country |
| `LandedCost.DhlLandCostBuilder.SetReceiverDetails` | app/RequestBuilders/DHL/DhlLandCostBuilder.php:110-118 | `receiverDetails` becomes the flat map of exactly postal code, city and country |
| `LandedCost.DhlLandCostBuilder.SetGetCostBreakdown` | app/RequestBuilders/DHL/DhlLandCostBuilder.php:126-130 | overwrites `getCostBreakdown` alone |
| `LandedCost.DhlLandCostBuilder.SetCharges` | app/RequestBuilders/DHL/DhlLandCostBuilder.php:138-142 | overwrites `charges` alone with the caller's array as given |
| `LandedCost.DhlLandCostBuilder.SetShipmentPurpose` | app/RequestBuilders/DHL/DhlLandCostBuilder.php:150-154 | overwrites `shipmentPurpose` alone |
| `LandedCost.DhlLandCostBuilder.SetTransportationMode` | app/RequestBuilders/DHL/DhlLandCostBuilder.php:162-166 | overwrites `transportationMode` alone |
| `LandedCost.DhlLandCostBuilder.SetMerchantSelectedCarrierName` | app/RequestBuilders/DHL/DhlLandCostBuilder.php:174-178 | overwrites `merchantSelectedCarrierName` alone |
| `LandedCost.DhlLandCostBuilder.SetPackageDetails` | app/RequestBuilders/DHL/DhlLandCostBuilder.php:186-199 | `packages` becomes a list of exactly one package |
| `LandedCost.DhlLandCostBuilder.SetItems` | app/RequestBuilders/DHL/DhlLandCostBuilder.php:207-211 | overwrites `items` alone with the caller's array as given, not renumbered |
| `LandedCost.DhlLandCostBuilder.SetGetTariffFormula` | app/RequestBuilders/DHL/DhlLandCostBuilder.php:219-223 | overwrites `getTariffFormula` alone |
| `LandedCost.DhlLandCostBuilder.SetGetQuotationID` | app/RequestBuilders/DHL/DhlLandCostBuilder.php:231-235 | overwrites `getQuotationID` alone |
| `LandedCost.DhlLandCostBuilder.GetData` | app/RequestBuilders/DHL/DhlLandCostBuilder.php:242-245 | returns the document as accumulated |
| `AddressValidation.AcceptedTypes` | app/RequestBuilders/DHL/DhlAddressValidationRequestBuilder.php:21 | the type check lets through exactly "pickup", "delivery" and, by loose comparison, `true` |
| `AddressValidation.DhlAddressValidationRequestBuilder.constructor` | app/RequestBuilders/DHL/DhlAddressValidationRequestBuilder.php:9 | the document starts empty |
| `AddressValidation.DhlAddressValidationRequestBuilder.SetType` | app/RequestBuilders/DHL/DhlAddressValidationRequestBuilder.php:19-26 | succeeds iff `in_array` finds the type among "pickup" and "delivery", then stores it at `type`; otherwise fails with InvalidArgumentException and the fixed message, document unchanged |
| `AddressValidation.DhlAddressValidationRequestBuilder.SetCountryCode` | app/RequestBuilders/DHL/DhlAddressValidationRequestBuilder.php:28-32 | overwrites `countryCode` alone |
| `AddressValidation.DhlAddressValidationRequestBuilder.SetPostalCode` | app/RequestBuilders/DHL/DhlAddressValidationRequestBuilder.php:34-38 | overwrites `postalCode` alone, null by default |
| `AddressValidation.DhlAddressValidationRequestBuilder.SetCityName` | app/RequestBuilders/DHL/DhlAddressValidationRequestBuilder.php:40-44 | overwrites `cityName` alone, null by default |
| `AddressValidation.DhlAddressValidationRequestBuilder.SetCountyName` | app/RequestBuilders/DHL/DhlAddressValidationRequestBuilder.php:46-50 | overwrites `countyName` alone, null by default |
| `AddressValidation.DhlAddressValidationRequestBuilder.SetStrictValidation` | app/RequestBuilders/DHL/DhlAddressValidationRequestBuilder.php:52-56 | overwrites `strictValidation` alone with the argument as given |
| `AddressValidation.DhlAddressValidationRequestBuilder.GetData` | app/RequestBuilders/DHL/DhlAddressValidationRequestBuilder.php:58-61 | returns the document as accumulated |
| `Tracking.DhlTrakingRequestBuilder.constructor` | app/RequestBuilders/DHL/DhlTrakingRequestBuilder.php:9 | the document starts empty |
| `Tracking.DhlTrakingRequestBuilder.SetTrackingNumber` | app/RequestBuilders/DHL/DhlTrakingRequestBuilder.php:12-16 | overwrites `shipmentTrackingNumber` alone |
| `Tracking.DhlTrakingRequestBuilder.SetLanguage` | app/RequestBuilders/DHL/DhlTrakingRequestBuilder.php:18-22 | overwrites `Accept-Language` alone, in the same flat document |
| `Tracking.DhlTrakingRequestBuilder.GetData` | app/RequestBuilders/DHL/DhlTrakingRequestBuilder.php:24-27 | returns the document as accumulated |

## Left out

- `app/Services/DhlService.php` is not part of this model. It makes the Guzzle HTTP calls, builds the Basic-auth header, reads the configuration and decodes the responses: this is I/O through a library outside the model.
- The `Accept-Language` default of the tracking call belongs to the HTTP call in `app/Services/DhlService.php`; the tracking builder stores only what `setLanguage` is given.
- `app/Http/Controllers/DHLController.php` and `routes/web.php` are not part of this model. They are framework wiring with literal arguments.
- Fluent chaining: every PHP setter returns `$this`. Here a setter returns nothing, and a chain is a sequence of calls on one object.
- Floating-point payload values (weights, dimensions, prices) are opaque bit patterns, because no builder computes with them.
- Key order: PHP arrays, and the JSON sent, keep insertion order. The model's maps do not.
- `array` parameters: a line item is a string-keyed map (`map<string, Json>`). A list-shaped PHP array given as a line item is not modelled. `setCharges` and `setItems` require a list or a map, as their `array` type declaration does; the `TypeError` PHP raises for anything else is not modelled.
- Arguments PHP ignores, such as an extra argument to `getData` or a fourth argument to the domestic `setOutputImageProperties`, cannot be written in the Dafny signatures.
- Loose comparison follows PHP 8. PHP 7, where `0` loosely equals "metric", is not modelled.
- RatingRequest.DhlRatingRequestBuilder.SetPlannedShippingDateAndTime: does not model Carbon's mutation of the caller's object by `addDays`, or time zones. The input is a valid local civil date-time record, and the contract covers only the stored text.
- Calendar.Format: the year is written as PHP 8.2 and later write `Y` (at least four digits, with a minus sign for years before year 0). The different output of older PHP versions for years outside 1000–9999 is not modelled.
- Json.Set: three PHP writes are modelled differently, and `ConformsFits` and the builders' `Valid()` show that no sequence of setter calls reaches any of them:
  - a write through `true`, a number or a string, where PHP throws an error, or for a string writes one character. A write through `false` is not among these: PHP 8 turns `false` into an array, as `Set` does (`Json.FalseBecomesArray`);
  - a key written into a list, where PHP adds the string key and keeps the elements, while `Set` replaces the list with a map;
  - `[0]` or `[]` on a map, where PHP keeps the entries and uses key 0 or the next integer key, while `Set` drops the entries.
