/** The landed-cost request builder: every setter writes top-level keys of a flat document. */
module LandedCost {
  import opened Json
  import opened Payload

  class DhlLandCostBuilder {
    var data: map<string, Json>

    constructor ()
      ensures data == map[]
    {
      data := map[];
    }

    /** Unlike the other builders, both account fields must be given. */
    method SetAccounts(typeCode: Json, number: Json)
      modifies this
      ensures data == old(data)["accounts" := Accounts(typeCode, number)]
    {
      data := data["accounts" := Accounts(typeCode, number)];
    }

    /** Writes exactly the three flags, leaving every other key as it was. */
    method SetCustomsAndInsuranceDetails(isCustomsDeclarable: Json, isDTPRequested: Json, isInsuranceRequested: Json)
      modifies this
      ensures data == old(data)["isCustomsDeclarable" := isCustomsDeclarable]["isDTPRequested" := isDTPRequested]
                               ["isInsuranceRequested" := isInsuranceRequested]
      ensures data.Keys == old(data).Keys + {"isCustomsDeclarable", "isDTPRequested", "isInsuranceRequested"}
    {
      data := data["isCustomsDeclarable" := isCustomsDeclarable];
      data := data["isDTPRequested" := isDTPRequested];
      data := data["isInsuranceRequested" := isInsuranceRequested];
    }

    method SetProductCode(productCode: Json)
      modifies this
      ensures data == old(data)["productCode" := productCode]
    {
      data := data["productCode" := productCode];
    }

    method SetLocalProductCode(localProductCode: Json)
      modifies this
      ensures data == old(data)["localProductCode" := localProductCode]
    {
      data := data["localProductCode" := localProductCode];
    }

    /** Stored as given, without normalisation. */
    method SetUnitOfMeasurement(unitOfMeasurement: Json)
      modifies this
      ensures data == old(data)["unitOfMeasurement" := unitOfMeasurement]
    {
      data := data["unitOfMeasurement" := unitOfMeasurement];
    }

    method SetCurrencyCode(currencyCode: Json)
      modifies this
      ensures data == old(data)["currencyCode" := currencyCode]
    {
      data := data["currencyCode" := currencyCode];
    }

    /** A flat address of exactly postal code, city and country. */
    method SetShipperDetails(postalCode: Json, cityName: Json, countryCode: Json)
      modifies this
      ensures data == old(data)["shipperDetails" := JObj(map["postalCode" := postalCode, "cityName" := cityName, "countryCode" := countryCode])]
    {
      data := data["shipperDetails" := JObj(map["postalCode" := postalCode, "cityName" := cityName, "countryCode" := countryCode])];
    }

    /** A flat address of exactly postal code, city and country. */
    method SetReceiverDetails(postalCode: Json, cityName: Json, countryCode: Json)
      modifies this
      ensures data == old(data)["receiverDetails" := JObj(map["postalCode" := postalCode, "cityName" := cityName, "countryCode" := countryCode])]
    {
      data := data["receiverDetails" := JObj(map["postalCode" := postalCode, "cityName" := cityName, "countryCode" := countryCode])];
    }

    method SetGetCostBreakdown(getCostBreakdown: Json)
      modifies this
      ensures data == old(data)["getCostBreakdown" := getCostBreakdown]
    {
      data := data["getCostBreakdown" := getCostBreakdown];
    }

    /** The `array` parameter type admits a list or a keyed array, stored as given. */
    method SetCharges(charges: Json)
      requires charges.JArr? || charges.JObj?
      modifies this
      ensures data == old(data)["charges" := charges]
    {
      data := data["charges" := charges];
    }

    method SetShipmentPurpose(shipmentPurpose: Json)
      modifies this
      ensures data == old(data)["shipmentPurpose" := shipmentPurpose]
    {
      data := data["shipmentPurpose" := shipmentPurpose];
    }

    method SetTransportationMode(transportationMode: Json)
      modifies this
      ensures data == old(data)["transportationMode" := transportationMode]
    {
      data := data["transportationMode" := transportationMode];
    }

    method SetMerchantSelectedCarrierName(merchantSelectedCarrierName: Json)
      modifies this
      ensures data == old(data)["merchantSelectedCarrierName" := merchantSelectedCarrierName]
    {
      data := data["merchantSelectedCarrierName" := merchantSelectedCarrierName];
    }

    /** Replaces the packages with a single package. */
    method SetPackageDetails(weight: Json, length: Json, width: Json, height: Json)
      modifies this
      ensures data == old(data)["packages" := JArr([Package(weight, length, width, height)])]
    {
      data := data["packages" := JArr([Package(weight, length, width, height)])];
    }

    /** The caller's items, stored as given: nothing is numbered. */
    method SetItems(items: Json)
      requires items.JArr? || items.JObj?
      modifies this
      ensures data == old(data)["items" := items]
    {
      data := data["items" := items];
    }

    method SetGetTariffFormula(getTariffFormula: Json)
      modifies this
      ensures data == old(data)["getTariffFormula" := getTariffFormula]
    {
      data := data["getTariffFormula" := getTariffFormula];
    }

    method SetGetQuotationID(getQuotationID: Json)
      modifies this
      ensures data == old(data)["getQuotationID" := getQuotationID]
    {
      data := data["getQuotationID" := getQuotationID];
    }

    method GetData() returns (doc: Json)
      ensures doc == JObj(data)
    {
      doc := JObj(data);
    }
  }
}
