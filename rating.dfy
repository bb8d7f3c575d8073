/** The rate-quote request builder, and the shipping date it derives from the caller's date. */
module RatingRequest {
  import opened Wrappers
  import opened Json
  import opened Schema
  import opened Payload
  import opened Calendar

  /** Only `customerDetails` is written through; every other key is a leaf. */
  const RatingSchema: Shape := Object(map["customerDetails" := Object(map[])])

  /**
   * `addDays(4)->setTime(15, 00, 00)`: four calendar days later, at 15:00:00,
   * whatever the time of day was.
   */
  function AdjustedShippingTime(t: DateTime): (r: DateTime)
    requires ValidDateTime(t)
    ensures ValidDateTime(r)
    ensures DayNumber(r.date) == DayNumber(t.date) + 4
    ensures r.time == Time(15, 0, 0)
  {
    DateTime(AddDays(t.date, 4), Time(15, 0, 0))
  }

  /** The stored text `Y-m-d\TH:i:s` of the adjusted time; it reads back as that time. */
  function PlannedShippingText(t: DateTime): (r: string)
    requires ValidDateTime(t)
    ensures Parse(r) == Some(AdjustedShippingTime(t))
    ensures |r| == |YearText(AdjustedShippingTime(t).date.year)| + 15
    ensures 0 <= AdjustedShippingTime(t).date.year < 10000 ==> |r| == 19
  {
    ParseFormat(AdjustedShippingTime(t));
    Format(AdjustedShippingTime(t))
  }

  /** The adjusted time is the one valid date four days on, whichever way it is reached. */
  lemma AdjustedShippingDateUnique(t: DateTime, d: Date)
    requires ValidDateTime(t) && ValidDate(d)
    requires DayNumber(d) == DayNumber(t.date) + 4
    ensures AdjustedShippingTime(t) == DateTime(d, Time(15, 0, 0))
  {
    AddDaysUnique(t.date, 4, d);
  }

  /** The time of day of the input never shows in the stored text. */
  lemma TimeOfDayIgnored(a: DateTime, b: DateTime)
    requires ValidDateTime(a) && ValidDateTime(b) && a.date == b.date
    ensures PlannedShippingText(a) == PlannedShippingText(b)
  {
  }

  /** The text of 5 January 2024 at 15:00, the value `NewYearsDayExample` needs. */
  lemma FifthOfJanuaryText()
    ensures Format(DateTime(Date(2024, 1, 5), Time(15, 0, 0))) == "2024-01-05T15:00:00"
  {
    assert YearText(2024) == "2024";
  }

  /** A plain four days on, within one month. */
  lemma NewYearsDayExample()
    ensures PlannedShippingText(DateTime(Date(2024, 1, 1), Time(10, 0, 0))) == "2024-01-05T15:00:00"
  {
    var t := DateTime(Date(2024, 1, 1), Time(10, 0, 0));
    assert AdjustedShippingTime(t) == DateTime(Date(2024, 1, 5), Time(15, 0, 0)) by {
      assert NextDay(Date(2024, 1, 1)) == Date(2024, 1, 2);
      assert AddDays(Date(2024, 1, 1), 4) == AddDays(Date(2024, 1, 2), 3);
      assert AddDays(Date(2024, 1, 2), 3) == AddDays(Date(2024, 1, 3), 2);
      assert AddDays(Date(2024, 1, 3), 2) == Date(2024, 1, 5);
    }
    FifthOfJanuaryText();
  }

  /** Four days from 27 February 2024 cross the leap day into March. */
  lemma LeapYearExample()
    ensures PlannedShippingText(DateTime(Date(2024, 2, 27), Time(9, 30, 0))) == "2024-03-02T15:00:00"
  {
  }

  /** Four days from 30 December 2023 cross into the next year. */
  lemma YearEndExample()
    ensures PlannedShippingText(DateTime(Date(2023, 12, 30), Time(23, 59, 59))) == "2024-01-03T15:00:00"
  {
    assert NextDay(Date(2023, 12, 31)) == Date(2024, 1, 1);
    assert AddDays(Date(2024, 1, 1), 2) == Date(2024, 1, 3);
    assert AddDays(Date(2023, 12, 30), 4) == AddDays(Date(2023, 12, 31), 3) == Date(2024, 1, 3);
    assert YearText(2024) == "2024";
  }

  class DhlRatingRequestBuilder {
    var data: Json

    ghost predicate Valid()
      reads this
    {
      Conforms(data, RatingSchema)
    }

    constructor ()
      ensures Valid() && data == JObj(map[])
    {
      data := JObj(map[]);
    }

    /** `$this->data[p...] = v` */
    method Write(p: Path, v: Json)
      requires Valid() && Readable(p) && Follows(RatingSchema, p) && Conforms(v, ShapeAt(RatingSchema, p))
      modifies this
      ensures Valid() && Fits(old(data), p) && Assigned(old(data), data, p, v)
    {
      SchemaWrite(data, RatingSchema, p, v);
      data := Set(data, p, v);
    }

    /** The shipper's province is its country code, and its first address line is its city. */
    method SetShipperDetails(cityName: Json, countryCode: Json, postalCode: Json := JStr(""))
      requires Valid()
      modifies this
      ensures Valid()
      ensures Assigned(old(data), data, [Key("customerDetails"), Key("shipperDetails")], JObj(map[
        "postalCode" := postalCode, "cityName" := cityName, "countryCode" := countryCode,
        "provinceCode" := countryCode, "addressLine1" := cityName]))
    {
      Write([Key("customerDetails"), Key("shipperDetails")], JObj(map[
        "postalCode" := postalCode, "cityName" := cityName, "countryCode" := countryCode,
        "provinceCode" := countryCode, "addressLine1" := cityName]));
    }

    /** The receiver's first address line is its city; it has no province. */
    method SetReceiverDetails(cityName: Json, countryCode: Json, postalCode: Json := JStr(""))
      requires Valid()
      modifies this
      ensures Valid()
      ensures Assigned(old(data), data, [Key("customerDetails"), Key("receiverDetails")], JObj(map[
        "postalCode" := postalCode, "cityName" := cityName, "addressLine1" := cityName, "countryCode" := countryCode]))
    {
      Write([Key("customerDetails"), Key("receiverDetails")], JObj(map[
        "postalCode" := postalCode, "cityName" := cityName, "addressLine1" := cityName, "countryCode" := countryCode]));
    }

    method SetAccounts(typeCode: Json := JStr("shipper"), number: Json := JStr(""))
      requires Valid()
      modifies this
      ensures Valid() && Assigned(old(data), data, [Key("accounts")], Accounts(typeCode, number))
    {
      Write([Key("accounts")], Accounts(typeCode, number));
    }

    /** Stores the caller's date moved four days on, at 15:00:00, as `Y-m-d\TH:i:s` text. */
    method SetPlannedShippingDateAndTime(plannedShippingDateAndTime: DateTime)
      requires Valid() && ValidDateTime(plannedShippingDateAndTime)
      modifies this
      ensures Valid()
      ensures Assigned(old(data), data, [Key("plannedShippingDateAndTime")], JStr(PlannedShippingText(plannedShippingDateAndTime)))
    {
      var adjustedPickupTime := AdjustedShippingTime(plannedShippingDateAndTime);
      Write([Key("plannedShippingDateAndTime")], JStr(Format(adjustedPickupTime)));
    }

    /** Stored as given: unlike the shipping builders, no unit is rejected. */
    method SetUnitOfMeasurement(unitOfMeasurement: Json := JStr("metric"))
      requires Valid()
      modifies this
      ensures Valid() && Assigned(old(data), data, [Key("unitOfMeasurement")], unitOfMeasurement)
    {
      Write([Key("unitOfMeasurement")], unitOfMeasurement);
    }

    method SetIsCustomsDeclarable(isCustomsDeclarable: Json)
      requires Valid()
      modifies this
      ensures Valid() && Assigned(old(data), data, [Key("isCustomsDeclarable")], isCustomsDeclarable)
    {
      Write([Key("isCustomsDeclarable")], isCustomsDeclarable);
    }

    method SetRequestAllValueAddedServices(requestAllValueAddedServices: Json)
      requires Valid()
      modifies this
      ensures Valid() && Assigned(old(data), data, [Key("requestAllValueAddedServices")], requestAllValueAddedServices)
    {
      Write([Key("requestAllValueAddedServices")], requestAllValueAddedServices);
    }

    method SetReturnStandardProductsOnly(returnStandardProductsOnly: Json)
      requires Valid()
      modifies this
      ensures Valid() && Assigned(old(data), data, [Key("returnStandardProductsOnly")], returnStandardProductsOnly)
    {
      Write([Key("returnStandardProductsOnly")], returnStandardProductsOnly);
    }

    method SetNextBusinessDay(nextBusinessDay: Json)
      requires Valid()
      modifies this
      ensures Valid() && Assigned(old(data), data, [Key("nextBusinessDay")], nextBusinessDay)
    {
      Write([Key("nextBusinessDay")], nextBusinessDay);
    }

    /** Replaces the packages with one package, 1 × 1 × 1 unless the caller gives its size. */
    method SetPackages(weight: Json, length: Json := JInt(1), width: Json := JInt(1), height: Json := JInt(1))
      requires Valid()
      modifies this
      ensures Valid() && Assigned(old(data), data, [Key("packages")], JArr([Package(weight, length, width, height)]))
      ensures Elements(data, [Key("packages")]) == [Package(weight, length, width, height)]
    {
      Write([Key("packages")], JArr([Package(weight, length, width, height)]));
    }

    method GetData() returns (doc: Json)
      ensures doc == data
    {
      doc := data;
    }
  }
}
