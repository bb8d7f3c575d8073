/** The international shipment request builder. */
module InternationalShipping {
  import opened Wrappers
  import opened Json
  import opened Schema
  import opened Payload

  const ExportDeclarationShape: Shape := Object(map["lineItems" := Array(AnyValue)])

  /**
   * The containers the setters write through: `pickup` and its
   * `pickupDetails`, `outputImageProperties`, the two parties under
   * `customerDetails`, and `content` down to the line-item list.
   */
  const InternationalSchema: Shape := Object(map[
    "pickup" := Object(map["pickupDetails" := Object(map[])]),
    "outputImageProperties" := Object(map[]),
    "customerDetails" := Object(map["shipperDetails" := Object(map[]), "receiverDetails" := Object(map[])]),
    "content" := Object(map["exportDeclaration" := ExportDeclarationShape])
  ])

  const ExportDeclaration: Path := [Key("content"), Key("exportDeclaration")]
  const LineItems: Path := [Key("content"), Key("exportDeclaration"), Key("lineItems")]
  const Incoterm: Path := [Key("content"), Key("incoterm")]

  /** `content.<key>` for a key other than `exportDeclaration`. */
  function ContentPath(key: string): Path {
    [Key("content"), Key(key)]
  }

  function ImagePath(key: string): Path {
    [Key("outputImageProperties"), Key(key)]
  }

  /** `customerDetails.<role>.<part>` */
  function PartyPath(role: string, part: string): Path {
    [Key("customerDetails"), Key(role), Key(part)]
  }

  function PickupPath(part: string): Path {
    [Key("pickup"), Key("pickupDetails"), Key(part)]
  }

  function PostalAddress(postalCode: Json, cityName: Json, countryCode: Json, addressLine1: Json): Json {
    JObj(map["postalCode" := postalCode, "cityName" := cityName, "countryCode" := countryCode, "addressLine1" := addressLine1])
  }

  function Contact(phone: Json, companyName: Json, fullName: Json): Json {
    JObj(map["phone" := phone, "companyName" := companyName, "fullName" := fullName])
  }

  /** `{invoice: {date, number}}`: an export declaration without line items. */
  function InvoiceDeclaration(invoiceDate: Json, invoiceNumber: Json): Json {
    JObj(map["invoice" := JObj(map["date" := invoiceDate, "number" := invoiceNumber])])
  }

  /** The incoterm setter writes a constant, so calling it twice is calling it once. */
  lemma IncotermIdempotent(d: Json)
    ensures Set(Set(d, Incoterm, JStr("DAP")), Incoterm, JStr("DAP")) == Set(d, Incoterm, JStr("DAP"))
  {
    SetTwice(d, Incoterm, JStr("DAP"), JStr("DAP"));
  }

  /** The line-item append is a write the schema provides for. */
  lemma LineItemFollows()
    ensures Readable(LineItems) && Follows(InternationalSchema, LineItems + [Append])
    ensures ShapeAt(InternationalSchema, LineItems + [Append]) == AnyValue
  {
    var p := LineItems + [Append];
    assert p[1..] == [Key("exportDeclaration"), Key("lineItems"), Append];
    assert p[1..][1..] == [Key("lineItems"), Append] && p[1..][1..][1..] == [Append];
    assert Follows(Array(AnyValue), [Append]) && ShapeAt(Array(AnyValue), [Append]) == AnyValue;
    assert Follows(ExportDeclarationShape, [Key("lineItems"), Append]);
    assert ShapeAt(ExportDeclarationShape, [Key("lineItems"), Append]) == AnyValue;
  }

  class DhlInternationalShippingtBuilder {
    var data: Json

    /** The document fits the schema, and its line items are numbered 1, 2, 3, … */
    ghost predicate Valid()
      reads this
    {
      Conforms(data, InternationalSchema) && NumberedFromOne(Elements(data, LineItems))
    }

    constructor ()
      ensures Valid() && data == JObj(map[])
    {
      data := JObj(map[]);
    }

    /** `$this->data[p...] = v` for a path that does not reach the line items. */
    method Write(p: Path, v: Json)
      requires Valid() && Readable(p) && Follows(InternationalSchema, p) && Conforms(v, ShapeAt(InternationalSchema, p))
      requires Diverge(p, LineItems)
      modifies this
      ensures Valid() && Fits(old(data), p) && Assigned(old(data), data, p, v)
    {
      SchemaWrite(data, InternationalSchema, p, v);
      data := Set(data, p, v);
    }

    method SetPlannedShippingDateAndTime(plannedPickupDateAndTime: Json)
      requires Valid()
      modifies this
      ensures Valid() && Assigned(old(data), data, [Key("plannedShippingDateAndTime")], plannedPickupDateAndTime)
    {
      Write([Key("plannedShippingDateAndTime")], plannedPickupDateAndTime);
    }

    method SetProductCode(productCode: Json)
      requires Valid()
      modifies this
      ensures Valid() && Assigned(old(data), data, [Key("productCode")], productCode)
    {
      Write([Key("productCode")], productCode);
    }

    method SetPickup(isRequested: Json)
      requires Valid()
      modifies this
      ensures Valid() && Assigned(old(data), data, [Key("pickup"), Key("isRequested")], isRequested)
    {
      Write([Key("pickup"), Key("isRequested")], isRequested);
    }

    method SetPickupCloseTime(closeTime: Json)
      requires Valid()
      modifies this
      ensures Valid() && Assigned(old(data), data, [Key("pickup"), Key("closeTime")], closeTime)
    {
      Write([Key("pickup"), Key("closeTime")], closeTime);
    }

    /** The second argument, the street address, is stored as `addressLine1`. */
    method SetPickupPostalAddress(pickupPostalCode: Json, address: Json, cityName: Json, countryCode: Json)
      requires Valid()
      modifies this
      ensures Valid()
      ensures Assigned(old(data), data, PickupPath("postalAddress"), PostalAddress(pickupPostalCode, cityName, countryCode, address))
    {
      Write(PickupPath("postalAddress"), PostalAddress(pickupPostalCode, cityName, countryCode, address));
    }

    method SetPickupContactInfo(phone: Json, companyName: Json, fullName: Json)
      requires Valid()
      modifies this
      ensures Valid() && Assigned(old(data), data, PickupPath("contactInformation"), Contact(phone, companyName, fullName))
    {
      Write(PickupPath("contactInformation"), Contact(phone, companyName, fullName));
    }

    /** The encoding format, then exactly the invoice and waybill image options sharing `isRequested`. */
    method SetOutputImageProperties(hideAccountNumber: Json := JBool(false), encodingFormat: Json := JStr("pdf"),
                                    isRequested: Json := JBool(true))
      requires Valid()
      modifies this
      ensures Valid()
      ensures AssignedBoth(old(data), data, ImagePath("encodingFormat"), encodingFormat,
                           ImagePath("imageOptions"), ImageOptions(hideAccountNumber, isRequested))
    {
      ghost var d0 := data;
      Write(ImagePath("encodingFormat"), encodingFormat);
      ghost var d1 := data;
      Write(ImagePath("imageOptions"), ImageOptions(hideAccountNumber, isRequested));
      AssignTwice(d0, d1, data, ImagePath("encodingFormat"), encodingFormat,
                  ImagePath("imageOptions"), ImageOptions(hideAccountNumber, isRequested));
    }

    method SetShipperPostalDetails(postalCode: Json, cityName: Json, countryCode: Json, addressLine1: Json)
      requires Valid()
      modifies this
      ensures Valid()
      ensures Assigned(old(data), data, PartyPath("shipperDetails", "postalAddress"),
                       PostalAddress(postalCode, cityName, countryCode, addressLine1))
    {
      Write(PartyPath("shipperDetails", "postalAddress"), PostalAddress(postalCode, cityName, countryCode, addressLine1));
    }

    method SetShipperContactInformationDetails(phone: Json, companyName: Json, fullName: Json)
      requires Valid()
      modifies this
      ensures Valid()
      ensures Assigned(old(data), data, PartyPath("shipperDetails", "contactInformation"), Contact(phone, companyName, fullName))
    {
      Write(PartyPath("shipperDetails", "contactInformation"), Contact(phone, companyName, fullName));
    }

    method SetReceiverPostalDetails(postalCode: Json, cityName: Json, countryCode: Json, addressLine1: Json)
      requires Valid()
      modifies this
      ensures Valid()
      ensures Assigned(old(data), data, PartyPath("receiverDetails", "postalAddress"),
                       PostalAddress(postalCode, cityName, countryCode, addressLine1))
    {
      Write(PartyPath("receiverDetails", "postalAddress"), PostalAddress(postalCode, cityName, countryCode, addressLine1));
    }

    /** The receiver's contact carries an `email`, null unless given. */
    method SetReceiverContactInformationDetails(phone: Json, companyName: Json, fullName: Json, email: Json := JNull)
      requires Valid()
      modifies this
      ensures Valid()
      ensures Assigned(old(data), data, PartyPath("receiverDetails", "contactInformation"),
                       JObj(map["phone" := phone, "companyName" := companyName, "fullName" := fullName, "email" := email]))
    {
      Write(PartyPath("receiverDetails", "contactInformation"),
            JObj(map["phone" := phone, "companyName" := companyName, "fullName" := fullName, "email" := email]));
    }

    method SetShipmentIsCustomsDeclarable(boolVal: Json, description: Json)
      requires Valid()
      modifies this
      ensures Valid()
      ensures AssignedBoth(old(data), data, ContentPath("isCustomsDeclarable"), boolVal, ContentPath("description"), description)
    {
      ghost var d0 := data;
      Write(ContentPath("isCustomsDeclarable"), boolVal);
      ghost var d1 := data;
      Write(ContentPath("description"), description);
      AssignTwice(d0, d1, data, ContentPath("isCustomsDeclarable"), boolVal, ContentPath("description"), description);
    }

    method SetShipmentCustomsDeclarableData(declaredValue: Json, declaredValueCurrency: Json)
      requires Valid()
      modifies this
      ensures Valid()
      ensures AssignedBoth(old(data), data, ContentPath("declaredValue"), declaredValue,
                           ContentPath("declaredValueCurrency"), declaredValueCurrency)
    {
      ghost var d0 := data;
      Write(ContentPath("declaredValue"), declaredValue);
      ghost var d1 := data;
      Write(ContentPath("declaredValueCurrency"), declaredValueCurrency);
      AssignTwice(d0, d1, data, ContentPath("declaredValue"), declaredValue,
                  ContentPath("declaredValueCurrency"), declaredValueCurrency);
    }

    /** Always the incoterm "DAP" (delivered at place). */
    method SetShipmentIncoterm()
      requires Valid()
      modifies this
      ensures Valid() && Assigned(old(data), data, Incoterm, JStr("DAP"))
    {
      Write(Incoterm, JStr("DAP"));
    }

    /** Replaces the whole export declaration, so every line item added before is gone. */
    method SetExportDeclarationInvoice(invoiceDate: Json, invoiceNumber: Json)
      requires Valid()
      modifies this
      ensures Valid()
      ensures Assigned(old(data), data, ExportDeclaration, InvoiceDeclaration(invoiceDate, invoiceNumber))
      ensures Elements(data, LineItems) == []
    {
      var declaration := InvoiceDeclaration(invoiceDate, invoiceNumber);
      assert "lineItems" !in declaration.fields;
      SchemaWrite(data, InternationalSchema, ExportDeclaration, declaration);
      GetSetBelow(data, ExportDeclaration, [Key("lineItems")], declaration);
      assert ExportDeclaration + [Key("lineItems")] == LineItems;
      data := Set(data, ExportDeclaration, declaration);
    }

    /**
     * Appends the caller's item under the number one past the current count
     * of line items, whatever `number` the caller put in it.
     */
    method SetExportDeclarationLineItem(lineItemDetails: map<string, Json>)
      requires Valid()
      modifies this
      ensures Valid()
      ensures Appended(old(data), data, LineItems, NumberedItem(lineItemDetails, |Elements(old(data), LineItems)|))
      ensures Elements(data, LineItems)[|Elements(old(data), LineItems)|]
              == JObj(lineItemDetails["number" := JInt(|Elements(old(data), LineItems)| + 1)])
    {
      var count := |Elements(data, LineItems)|;
      var item := lineItemDetails["number" := JInt(count + 1)];
      LineItemFollows();
      SchemaAppend(data, InternationalSchema, LineItems, JObj(item));
      NumberingExtends(Elements(data, LineItems), lineItemDetails);
      data := Set(data, LineItems + [Append], JObj(item));
    }

    /** A unit `in_array` does not find among "metric" and "imperial" is stored as "metric". */
    method SetShipmentUnitOfMeasurement(unitOfMeasurement: Json := JStr("metric"))
      requires Valid()
      modifies this
      ensures Valid() && Assigned(old(data), data, ContentPath("unitOfMeasurement"), NormaliseUnit(unitOfMeasurement))
    {
      var unit := unitOfMeasurement;
      if !LooselyIn(unit, Units) {
        unit := JStr("metric");
      }
      Write(ContentPath("unitOfMeasurement"), unit);
    }

    /** Packages are replaced, not accumulated: the list always holds the last package only. */
    method SetShipmentPackages(weight: Json, length: Json, width: Json, height: Json)
      requires Valid()
      modifies this
      ensures Valid() && Assigned(old(data), data, ContentPath("packages"), JArr([Package(weight, length, width, height)]))
      ensures Elements(data, ContentPath("packages")) == [Package(weight, length, width, height)]
    {
      Write(ContentPath("packages"), JArr([Package(weight, length, width, height)]));
    }

    method SetAccounts(typeCode: Json := JStr("shipper"), number: Json := JStr(""))
      requires Valid()
      modifies this
      ensures Valid() && Assigned(old(data), data, [Key("accounts")], Accounts(typeCode, number))
    {
      Write([Key("accounts")], Accounts(typeCode, number));
    }

    method GetData() returns (doc: Json)
      ensures doc == data
    {
      doc := data;
    }
  }
}
