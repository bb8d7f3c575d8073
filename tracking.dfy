/** The shipment-tracking request builder: two keys of a flat document. */
module Tracking {
  import opened Json

  class DhlTrakingRequestBuilder {
    var data: map<string, Json>

    constructor ()
      ensures data == map[]
    {
      data := map[];
    }

    method SetTrackingNumber(trackingNumber: Json)
      modifies this
      ensures data == old(data)["shipmentTrackingNumber" := trackingNumber]
    {
      data := data["shipmentTrackingNumber" := trackingNumber];
    }

    /** The language travels in the same document, under the header name `Accept-Language`. */
    method SetLanguage(language: Json)
      modifies this
      ensures data == old(data)["Accept-Language" := language]
    {
      data := data["Accept-Language" := language];
    }

    method GetData() returns (doc: Json)
      ensures doc == JObj(data)
    {
      doc := JObj(data);
    }
  }
}
