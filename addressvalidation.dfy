/** The address-validation request builder: a flat document whose `type` is guarded. */
module AddressValidation {
  import opened Wrappers
  import opened Json

  datatype Error = InvalidArgumentException(message: string)

  const ValidationTypes: set<string> := {"pickup", "delivery"}

  const InvalidTypeMessage: string := "Invalid type provided. Allowed values are 'pickup' or 'delivery'."

  /**
   * The values `setType` lets through: the two type names, and, because the
   * check is PHP's loose `in_array`, the boolean `true`.
   */
  lemma AcceptedTypes(t: Json)
    ensures LooselyIn(t, ValidationTypes) <==> t == JStr("pickup") || t == JStr("delivery") || t == JBool(true)
  {
  }

  class DhlAddressValidationRequestBuilder {
    var data: map<string, Json>

    constructor ()
      ensures data == map[]
    {
      data := map[];
    }

    /** Stores an accepted type; any other value raises the exception and changes nothing. */
    method SetType(t: Json) returns (r: Outcome<Error>)
      modifies this
      ensures r.Pass? <==> LooselyIn(t, ValidationTypes)
      ensures r.Pass? ==> data == old(data)["type" := t]
      ensures r.Fail? ==> data == old(data) && r.error == InvalidArgumentException(InvalidTypeMessage)
    {
      if !LooselyIn(t, ValidationTypes) {
        return Fail(InvalidArgumentException(InvalidTypeMessage));
      }
      data := data["type" := t];
      return Pass;
    }

    method SetCountryCode(countryCode: Json)
      modifies this
      ensures data == old(data)["countryCode" := countryCode]
    {
      data := data["countryCode" := countryCode];
    }

    method SetPostalCode(postalCode: Json := JNull)
      modifies this
      ensures data == old(data)["postalCode" := postalCode]
    {
      data := data["postalCode" := postalCode];
    }

    method SetCityName(cityName: Json := JNull)
      modifies this
      ensures data == old(data)["cityName" := cityName]
    {
      data := data["cityName" := cityName];
    }

    method SetCountyName(countyName: Json := JNull)
      modifies this
      ensures data == old(data)["countyName" := countyName]
    {
      data := data["countyName" := countyName];
    }

    /** Stored as given: the text "false" stays text. */
    method SetStrictValidation(strictValidation: Json)
      modifies this
      ensures data == old(data)["strictValidation" := strictValidation]
    {
      data := data["strictValidation" := strictValidation];
    }

    method GetData() returns (doc: Json)
      ensures doc == JObj(data)
    {
      doc := JObj(data);
    }
  }
}
