/** The pickup-booking request builder. */
module PickUpRequest {
  import opened Wrappers
  import opened Json
  import opened Schema
  import opened Payload

  /**
   * The containers the pickup setters write through: the four parties under
   * `customerDetails` and the `shipmentDetails` list, whose first entry holds
   * the `packages` list. Everything else is a leaf the setters replace whole.
   */
  const PickUpSchema: Shape := Object(map[
    "customerDetails" := Object(map[
      "shipperDetails" := Object(map[]),
      "receiverDetails" := Object(map[]),
      "bookingRequestorDetails" := Object(map[]),
      "pickupDetails" := Object(map[])
    ]),
    "shipmentDetails" := Array(ShipmentShape)
  ])

  const ShipmentDetails: Path := [Key("shipmentDetails")]
  /** `shipmentDetails[0]`: the first shipment, created by the first write through it. */
  const FirstShipment: Path := [Key("shipmentDetails"), First]
  const Packages: Path := [Key("shipmentDetails"), First, Key("packages")]
  const AccountsKey: Path := [Key("accounts")]

  /** `customerDetails.<role>.<part>` */
  function PartyPath(role: string, part: string): Path {
    [Key("customerDetails"), Key(role), Key(part)]
  }

  /** The accounts `setAccounts()` writes when called without arguments. */
  const DefaultAccounts: Json := Accounts(JStr("shipper"), JStr(""))

  /** The address list of the receiver, booking requestor and pickup parties (the shipper's has no province). */
  function PostalAddress(postalCode: Json, cityName: Json, countryCode: Json, provinceCode: Json,
                         addressLine1: Json, addressLine2: Json, addressLine3: Json, countryName: Json): Json
  {
    JObj(map[
      "postalCode" := postalCode, "cityName" := cityName, "countryCode" := countryCode,
      "provinceCode" := provinceCode, "addressLine1" := addressLine1, "addressLine2" := addressLine2,
      "addressLine3" := addressLine3, "countyName" := countryName
    ])
  }

  function ContactInformation(email: Json, phone: Json, companyName: Json, fullName: Json): Json {
    JObj(map["email" := email, "phone" := phone, "companyName" := companyName, "fullName" := fullName])
  }

  const ShipmentShape: Shape := Object(map["packages" := Array(AnyValue)])

  /** Any key of the first shipment other than `packages` is a leaf the schema lets a setter write. */
  lemma ShipmentLeaf(k: string)
    requires k != "packages"
    ensures Readable(FirstShipment + [Key(k)]) && Follows(PickUpSchema, FirstShipment + [Key(k)])
    ensures ShapeAt(PickUpSchema, FirstShipment + [Key(k)]) == AnyValue
  {
    var p := FirstShipment + [Key(k)];
    assert p[1..] == [First, Key(k)] && p[1..][1..] == [Key(k)];
    assert Follows(ShipmentShape, [Key(k)]) && ShapeAt(ShipmentShape, [Key(k)]) == AnyValue;
    assert Follows(Array(ShipmentShape), [First, Key(k)]) && ShapeAt(Array(ShipmentShape), [First, Key(k)]) == AnyValue;
  }

  /**
   * What a write through `shipmentDetails[0]` leaves of the shipment list: an
   * empty or missing list gains the first shipment, a longer one keeps its
   * length, and every shipment after the first is untouched.
   */
  predicate OtherShipmentsKept(before: Json, after: Json) {
    var s := Elements(before, ShipmentDetails);
    var t := Elements(after, ShipmentDetails);
    |t| == (if |s| == 0 then 1 else |s|) && (|s| > 0 ==> t[1..] == s[1..])
  }

  /** Every write below `shipmentDetails[0]`, whatever the rest of its path, keeps the other shipments. */
  lemma FirstShipmentWrite(d: Json, r: Path, v: Json)
    ensures OtherShipmentsKept(d, Set(d, FirstShipment + r, v))
  {
    var p := FirstShipment + r;
    assert p[0] == Key("shipmentDetails") && p[1..] == [First] + r && p[1..][1..] == r;
    var m: map<string, Json> := if d.JObj? then d.fields else map[];
    var child := if "shipmentDetails" in m then m["shipmentDetails"] else JNull;
    assert Set(d, p, v) == JObj(m["shipmentDetails" := Set(child, p[1..], v)]);
    assert Get(Set(d, p, v), ShipmentDetails) == Some(Set(child, p[1..], v));
    assert Get(d, ShipmentDetails) == if d.JObj? && "shipmentDetails" in d.fields then Some(child) else None;
  }

  class DhlPickUpRequestBuilder {
    var data: Json

    /** Every node a setter writes through is an array, so no setter can hit a scalar. */
    ghost predicate Valid()
      reads this
    {
      Conforms(data, PickUpSchema)
    }

    constructor ()
      ensures Valid() && data == JObj(map[])
    {
      data := JObj(map[]);
    }

    /** `$this->data[p...] = v` */
    method Write(p: Path, v: Json)
      requires Valid() && Readable(p) && Follows(PickUpSchema, p) && Conforms(v, ShapeAt(PickUpSchema, p))
      modifies this
      ensures Valid() && Fits(old(data), p) && Assigned(old(data), data, p, v)
    {
      SchemaWrite(data, PickUpSchema, p, v);
      data := Set(data, p, v);
    }

    /** `$this->data[p...][] = v` */
    method Push(p: Path, v: Json)
      requires Valid() && Readable(p) && Follows(PickUpSchema, p + [Append])
      requires Conforms(v, ShapeAt(PickUpSchema, p + [Append]))
      modifies this
      ensures Valid() && Fits(old(data), p + [Append]) && Appended(old(data), data, p, v)
    {
      SchemaAppend(data, PickUpSchema, p, v);
      data := Set(data, p + [Append], v);
    }

    method SetPlannedPickupDateAndTime(plannedPickupDateAndTime: Json)
      requires Valid()
      modifies this
      ensures Valid() && Assigned(old(data), data, [Key("plannedPickupDateAndTime")], plannedPickupDateAndTime)
    {
      Write([Key("plannedPickupDateAndTime")], plannedPickupDateAndTime);
    }

    method SetCloseTime(closeTime: Json)
      requires Valid()
      modifies this
      ensures Valid() && Assigned(old(data), data, [Key("closeTime")], closeTime)
    {
      Write([Key("closeTime")], closeTime);
    }

    method SetLocation(location: Json)
      requires Valid()
      modifies this
      ensures Valid() && Assigned(old(data), data, [Key("location")], location)
    {
      Write([Key("location")], location);
    }

    method SetLocationType(locationType: Json)
      requires Valid()
      modifies this
      ensures Valid() && Assigned(old(data), data, [Key("locationType")], locationType)
    {
      Write([Key("locationType")], locationType);
    }

    method SetRemark(remark: Json := JStr(""))
      requires Valid()
      modifies this
      ensures Valid() && Assigned(old(data), data, [Key("remark")], remark)
    {
      Write([Key("remark")], remark);
    }

    /** The shipper's address is the one without a `provinceCode` entry. */
    method SetShipperPostalDetails(postalCode: Json, cityName: Json, countryCode: Json, addressLine1: Json,
                                   addressLine2: Json, addressLine3: Json, countryName: Json)
      requires Valid()
      modifies this
      ensures Valid()
      ensures Assigned(old(data), data, PartyPath("shipperDetails", "postalAddress"), JObj(map[
        "postalCode" := postalCode, "cityName" := cityName, "countryCode" := countryCode,
        "addressLine1" := addressLine1, "addressLine2" := addressLine2, "addressLine3" := addressLine3,
        "countyName" := countryName]))
    {
      Write(PartyPath("shipperDetails", "postalAddress"), JObj(map[
        "postalCode" := postalCode, "cityName" := cityName, "countryCode" := countryCode,
        "addressLine1" := addressLine1, "addressLine2" := addressLine2, "addressLine3" := addressLine3,
        "countyName" := countryName]));
    }

    method SetShipperContactInformationDetails(email: Json, phone: Json, companyName: Json, fullName: Json)
      requires Valid()
      modifies this
      ensures Valid()
      ensures Assigned(old(data), data, PartyPath("shipperDetails", "contactInformation"),
                       ContactInformation(email, phone, companyName, fullName))
    {
      Write(PartyPath("shipperDetails", "contactInformation"), ContactInformation(email, phone, companyName, fullName));
    }

    method SetReceiverPostalDetails(postalCode: Json, cityName: Json, countryCode: Json, provinceCode: Json,
                                    addressLine1: Json, addressLine2: Json, addressLine3: Json, countryName: Json)
      requires Valid()
      modifies this
      ensures Valid()
      ensures Assigned(old(data), data, PartyPath("receiverDetails", "postalAddress"),
                       PostalAddress(postalCode, cityName, countryCode, provinceCode, addressLine1, addressLine2, addressLine3, countryName))
    {
      Write(PartyPath("receiverDetails", "postalAddress"),
            PostalAddress(postalCode, cityName, countryCode, provinceCode, addressLine1, addressLine2, addressLine3, countryName));
    }

    method SetReceiverContactInformationDetails(email: Json, phone: Json, companyName: Json, fullName: Json)
      requires Valid()
      modifies this
      ensures Valid()
      ensures Assigned(old(data), data, PartyPath("receiverDetails", "contactInformation"),
                       ContactInformation(email, phone, companyName, fullName))
    {
      Write(PartyPath("receiverDetails", "contactInformation"), ContactInformation(email, phone, companyName, fullName));
    }

    method SetBookingRequestPostalAddressDetails(postalCode: Json, cityName: Json, countryCode: Json, provinceCode: Json,
                                                 addressLine1: Json, addressLine2: Json, addressLine3: Json, countryName: Json)
      requires Valid()
      modifies this
      ensures Valid()
      ensures Assigned(old(data), data, PartyPath("bookingRequestorDetails", "postalAddress"),
                       PostalAddress(postalCode, cityName, countryCode, provinceCode, addressLine1, addressLine2, addressLine3, countryName))
    {
      Write(PartyPath("bookingRequestorDetails", "postalAddress"),
            PostalAddress(postalCode, cityName, countryCode, provinceCode, addressLine1, addressLine2, addressLine3, countryName));
    }

    method SetBookingRequestContactInformationDetails(email: Json, phone: Json, companyName: Json, fullName: Json)
      requires Valid()
      modifies this
      ensures Valid()
      ensures Assigned(old(data), data, PartyPath("bookingRequestorDetails", "contactInformation"),
                       ContactInformation(email, phone, companyName, fullName))
    {
      Write(PartyPath("bookingRequestorDetails", "contactInformation"), ContactInformation(email, phone, companyName, fullName));
    }

    method SetPickUpRequestPostalAddressDetails(postalCode: Json, cityName: Json, countryCode: Json, provinceCode: Json,
                                                addressLine1: Json, addressLine2: Json, addressLine3: Json, countryName: Json)
      requires Valid()
      modifies this
      ensures Valid()
      ensures Assigned(old(data), data, PartyPath("pickupDetails", "postalAddress"),
                       PostalAddress(postalCode, cityName, countryCode, provinceCode, addressLine1, addressLine2, addressLine3, countryName))
    {
      Write(PartyPath("pickupDetails", "postalAddress"),
            PostalAddress(postalCode, cityName, countryCode, provinceCode, addressLine1, addressLine2, addressLine3, countryName));
    }

    method SetPickUpRequestContactInformationDetails(email: Json, phone: Json, companyName: Json, fullName: Json)
      requires Valid()
      modifies this
      ensures Valid()
      ensures Assigned(old(data), data, PartyPath("pickupDetails", "contactInformation"),
                       ContactInformation(email, phone, companyName, fullName))
    {
      Write(PartyPath("pickupDetails", "contactInformation"), ContactInformation(email, phone, companyName, fullName));
    }

    /** Appends one shipment; its `localProductCode` is the product code, and `localProductCode` is not used. */
    method SetShipmentProductCode(productCode: Json, localProductCode: Json)
      requires Valid()
      modifies this
      ensures Valid()
      ensures Appended(old(data), data, ShipmentDetails,
                       JObj(map["productCode" := productCode, "localProductCode" := productCode]))
      ensures |Elements(data, ShipmentDetails)| == |Elements(old(data), ShipmentDetails)| + 1
    {
      var shipment := JObj(map["productCode" := productCode, "localProductCode" := productCode]);
      assert ShipmentDetails + [Append] == [Key("shipmentDetails"), Append];
      assert Follows(Array(ShipmentShape), [Append]) && ShapeAt(Array(ShipmentShape), [Append]) == ShipmentShape;
      assert "packages" !in shipment.fields;
      Push(ShipmentDetails, JObj(map["productCode" := productCode, "localProductCode" := productCode]));
    }

    method SetShipmentIsCustomsDeclarable(boolVal: Json)
      requires Valid()
      modifies this
      ensures Valid() && Assigned(old(data), data, FirstShipment + [Key("isCustomsDeclarable")], boolVal)
      ensures OtherShipmentsKept(old(data), data)
    {
      ShipmentLeaf("isCustomsDeclarable");
      FirstShipmentWrite(data, [Key("isCustomsDeclarable")], boolVal);
      Write(FirstShipment + [Key("isCustomsDeclarable")], boolVal);
    }

    method SetShipmentDeclaredValue(val: Json)
      requires Valid()
      modifies this
      ensures Valid() && Assigned(old(data), data, FirstShipment + [Key("declaredValue")], val)
      ensures OtherShipmentsKept(old(data), data)
    {
      ShipmentLeaf("declaredValue");
      FirstShipmentWrite(data, [Key("declaredValue")], val);
      Write(FirstShipment + [Key("declaredValue")], val);
    }

    method SetShipmentDeclaredValueCurrency(currency: Json)
      requires Valid()
      modifies this
      ensures Valid() && Assigned(old(data), data, FirstShipment + [Key("declaredValueCurrency")], currency)
      ensures OtherShipmentsKept(old(data), data)
    {
      ShipmentLeaf("declaredValueCurrency");
      FirstShipmentWrite(data, [Key("declaredValueCurrency")], currency);
      Write(FirstShipment + [Key("declaredValueCurrency")], currency);
    }

    /** A unit `in_array` does not find among "metric" and "imperial" is stored as "metric"; the call never fails. */
    method SetShipmentUnitOfMeasurement(unitOfMeasurement: Json := JStr("metric"))
      requires Valid()
      modifies this
      ensures Valid()
      ensures Assigned(old(data), data, FirstShipment + [Key("unitOfMeasurement")], NormaliseUnit(unitOfMeasurement))
      ensures OtherShipmentsKept(old(data), data)
    {
      var unit := unitOfMeasurement;
      if !LooselyIn(unit, Units) {
        unit := JStr("metric");
      }
      ShipmentLeaf("unitOfMeasurement");
      FirstShipmentWrite(data, [Key("unitOfMeasurement")], unit);
      Write(FirstShipment + [Key("unitOfMeasurement")], unit);
    }

    /** Packages accumulate: each call appends one to the first shipment's list. */
    method SetShipmentPackages(weight: Json, length: Json, width: Json, height: Json)
      requires Valid()
      modifies this
      ensures Valid() && Appended(old(data), data, Packages, Package(weight, length, width, height))
      ensures OtherShipmentsKept(old(data), data)
    {
      var p := Packages + [Append];
      assert p[1..] == [First, Key("packages"), Append] && p[1..][1..] == [Key("packages"), Append];
      assert p[1..][1..][1..] == [Append];
      assert Follows(Array(AnyValue), [Append]) && ShapeAt(Array(AnyValue), [Append]) == AnyValue;
      assert Follows(ShipmentShape, [Key("packages"), Append]);
      assert ShapeAt(ShipmentShape, [Key("packages"), Append]) == AnyValue;
      assert Follows(Array(ShipmentShape), [First, Key("packages"), Append]);
      assert ShapeAt(Array(ShipmentShape), [First, Key("packages"), Append]) == AnyValue;
      assert p == FirstShipment + [Key("packages"), Append];
      FirstShipmentWrite(data, [Key("packages"), Append], Package(weight, length, width, height));
      Push(Packages, Package(weight, length, width, height));
    }

    /**
     * Resets the top-level accounts to the defaults and copies them into the
     * first shipment, so both hold `[{typeCode: "shipper", number: ""}]`.
     */
    method SetShipmentAccountsDetails()
      requires Valid()
      modifies this
      ensures Valid()
      ensures data == Set(Set(old(data), AccountsKey, DefaultAccounts), FirstShipment + [Key("accounts")], DefaultAccounts)
      ensures Get(data, AccountsKey) == Get(data, FirstShipment + [Key("accounts")]) == Some(DefaultAccounts)
      ensures OtherShipmentsKept(old(data), data)
    {
      SetAccounts();
      var doc := GetData();
      var accounts := Get(doc, AccountsKey).value;
      ShipmentLeaf("accounts");
      assert Diverge(AccountsKey, ShipmentDetails);
      assert Elements(doc, ShipmentDetails) == Elements(old(data), ShipmentDetails);
      FirstShipmentWrite(doc, [Key("accounts")], accounts);
      Write(FirstShipment + [Key("accounts")], accounts);
      assert Diverge(FirstShipment + [Key("accounts")], AccountsKey);
    }

    method GetData() returns (doc: Json)
      ensures doc == data
    {
      doc := data;
    }

    method SetAccounts(typeCode: Json := JStr("shipper"), number: Json := JStr(""))
      requires Valid()
      modifies this
      ensures Valid() && Assigned(old(data), data, AccountsKey, Accounts(typeCode, number))
    {
      Write(AccountsKey, Accounts(typeCode, number));
    }
  }
}
