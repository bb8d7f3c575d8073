/** Sub-documents that several builders write in the same form, and the unit-of-measurement policy. */
module Payload {
  import opened Json

  /** `['weight' => …, 'dimensions' => ['length' => …, 'width' => …, 'height' => …]]` */
  function Package(weight: Json, length: Json, width: Json, height: Json): Json {
    JObj(map[
      "weight" := weight,
      "dimensions" := JObj(map["length" := length, "width" := width, "height" := height])
    ])
  }

  /** The single-entry accounts list `[['typeCode' => …, 'number' => …]]`. */
  function Accounts(typeCode: Json, number: Json): Json {
    JArr([JObj(map["typeCode" := typeCode, "number" := number])])
  }

  /** The two image options of a shipment: the commercial invoice and the waybill document. */
  function ImageOptions(hideAccountNumber: Json, isRequested: Json): Json {
    JArr([
      JObj(map["invoiceType" := JStr("commercial"), "isRequested" := isRequested, "typeCode" := JStr("invoice")]),
      JObj(map["hideAccountNumber" := hideAccountNumber, "isRequested" := isRequested, "typeCode" := JStr("waybillDoc")])
    ])
  }

  const Units: set<string> := {"metric", "imperial"}

  /**
   * The normalising policy of `setShipmentUnitOfMeasurement`: a value that
   * `in_array` does not find among the units is replaced by "metric".
   */
  function NormaliseUnit(u: Json): (r: Json)
    ensures LooselyIn(r, Units)
    ensures LooselyIn(u, Units) ==> r == u
    ensures r == u || r == JStr("metric")
  {
    if LooselyIn(u, Units) then u else JStr("metric")
  }

  lemma NormaliseUnitIdempotent(u: Json)
    ensures NormaliseUnit(NormaliseUnit(u)) == NormaliseUnit(u)
  {
  }

  /** `$lineItemDetails['number'] = count + 1`: the caller's item, its own number overridden. */
  function NumberedItem(details: map<string, Json>, count: nat): Json {
    JObj(details["number" := JInt(count + 1)])
  }

  /** Line items numbered 1, 2, 3, … in list order. */
  predicate NumberedFromOne(items: seq<Json>) {
    forall i :: 0 <= i < |items| ==>
      items[i].JObj? && "number" in items[i].fields && items[i].fields["number"] == JInt(i + 1)
  }

  /** Appending a numbered item to a numbered list keeps it numbered 1..n+1. */
  lemma NumberingExtends(items: seq<Json>, details: map<string, Json>)
    requires NumberedFromOne(items)
    ensures NumberedFromOne(items + [NumberedItem(details, |items|)])
  {
  }
}
