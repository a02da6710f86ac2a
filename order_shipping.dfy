/**
 * The shipment record: delivery day from the order type, the signature
 * string, the tracking code derived from it, the JSON view, and the object
 * whose private fields the property setters update.
 *
 * Timestamps are whole seconds (int); the clock reading is a parameter.
 * The SHA-256 digest is a parameter `sha256` that is never interpreted.
 */
module Shipping {
  import opened Digits

  const SecondsPerDay: int := 24 * 60 * 60
  const RegularDays: nat := 7
  const OtherDays: nat := 1

  /** Days from issue to delivery: a week for "Regular", one day for anything else. */
  function DeliveryDays(orderType: string): (days: nat)
    ensures days == RegularDays <==> orderType == "Regular"
    ensures days == OtherDays <==> orderType != "Regular"
  {
    if orderType == "Regular" then RegularDays else OtherDays
  }

  /** The values an OrderShipping object holds in its private fields. */
  datatype ShippingRecord = ShippingRecord(
    alg: string,
    typ: string,
    productId: string,
    orderId: string,
    phoneNumber: string,
    issuedAt: int,
    deliveryDay: int)

  /** The record a fresh OrderShipping holds when issued at time issuedAt. */
  function NewShipping(productId: string, orderId: string, phoneNumber: string, orderType: string, issuedAt: int)
    : (r: ShippingRecord)
    ensures r.alg == "SHA-256" && r.typ == "DS"
    ensures r.productId == productId && r.orderId == orderId && r.phoneNumber == phoneNumber
    ensures r.issuedAt == issuedAt
    ensures r.deliveryDay > r.issuedAt
    ensures orderType == "Regular" ==> r.deliveryDay == issuedAt + 7 * 86400
    ensures orderType != "Regular" ==> r.deliveryDay == issuedAt + 86400
  {
    ShippingRecord("SHA-256", "DS", productId, orderId, phoneNumber, issuedAt,
                   issuedAt + DeliveryDays(orderType) * SecondsPerDay)
  }

  const SignaturePrefix := "{alg:"
  const TypLabel := ",typ:"
  const OrderIdLabel := ",order_id:"
  const IssueDateLabel := ",issuedate:"
  const DeliveryDayLabel := ",deliveryday:"
  const SignatureSuffix := "}"

  /** The fixed-format string the tracking code is the digest of:
      "{alg:<alg>,typ:<typ>,order_id:<order id>,issuedate:<issued at>,deliveryday:<delivery day>}".
      The draft concatenates the float timestamps to strings directly, which
      Python refuses with a TypeError; here they are rendered in decimal. */
  function Signature(r: ShippingRecord): (sig: string)
    ensures sig == SignaturePrefix + r.alg + TypLabel + r.typ + OrderIdLabel + r.orderId +
                   IssueDateLabel + IntToString(r.issuedAt) +
                   DeliveryDayLabel + IntToString(r.deliveryDay) + SignatureSuffix
  {
    SignatureHead(r.alg, r.typ, r.orderId) + SignatureTimes(r.issuedAt, r.deliveryDay)
  }

  function SignatureHead(alg: string, typ: string, orderId: string): (head: string) {
    SignaturePrefix + alg + TypLabel + typ + OrderIdLabel + orderId + IssueDateLabel
  }

  function SignatureTimes(issuedAt: int, deliveryDay: int): (times: string) {
    IntToString(issuedAt) + (DeliveryDayLabel + (IntToString(deliveryDay) + SignatureSuffix))
  }

  /** The tracking code: the digest of the signature, recomputed on every
      read; the product id and the phone number play no part in it. */
  function TrackingCode(r: ShippingRecord, sha256: string -> string): (code: string)
    ensures code == sha256(Signature(r))
    ensures code == sha256(Signature(r.(productId := "", phoneNumber := "")))
  {
    sha256(Signature(r))
  }

  lemma CancelPrefix(h: string, a: string, b: string)
    requires h + a == h + b
    ensures a == b
  {
    assert a == (h + a)[|h|..];
    assert b == (h + b)[|h|..];
  }

  /** Two decimal renderings followed by text that starts with a non-digit
      can only be equal if the renderings are: a longer rendering would put a
      digit where the shorter one is followed by a non-digit. */
  lemma RenderingsSplit(a: int, b: int, x: string, y: string)
    requires |x| > 0 && !IsDigit(x[0]) && |y| > 0 && !IsDigit(y[0])
    requires IntToString(a) + x == IntToString(b) + y
    ensures a == b && x == y
  {
    var sa, sb := IntToString(a), IntToString(b);
    assert sa == (sa + x)[..|sa|];
    assert sb == (sb + y)[..|sb|];
    IntToStringInjective(a, b);
    CancelPrefix(sa, x, y);
  }

  /** The times part of the signature determines both timestamps. */
  lemma SignatureTimesInjective(i: int, d: int, i': int, d': int)
    requires SignatureTimes(i, d) == SignatureTimes(i', d')
    ensures i == i' && d == d'
  {
    var x := DeliveryDayLabel + (IntToString(d) + SignatureSuffix);
    var x' := DeliveryDayLabel + (IntToString(d') + SignatureSuffix);
    assert x[0] == ',' && x'[0] == ',';
    RenderingsSplit(i, i', x, x');
    CancelPrefix(DeliveryDayLabel, IntToString(d) + SignatureSuffix, IntToString(d') + SignatureSuffix);
    RenderingsSplit(d, d', SignatureSuffix, SignatureSuffix);
  }

  /** Given the algorithm tag, type tag and order id, the signature string
      determines both timestamps: editing issued_at or delivery_day always
      yields a different signature. */
  lemma SignatureDeterminesTimes(r: ShippingRecord, r': ShippingRecord)
    requires r.alg == r'.alg && r.typ == r'.typ && r.orderId == r'.orderId
    requires Signature(r) == Signature(r')
    ensures r.issuedAt == r'.issuedAt && r.deliveryDay == r'.deliveryDay
  {
    CancelPrefix(SignatureHead(r.alg, r.typ, r.orderId),
                 SignatureTimes(r.issuedAt, r.deliveryDay), SignatureTimes(r'.issuedAt, r'.deliveryDay));
    SignatureTimesInjective(r.issuedAt, r.deliveryDay, r'.issuedAt, r'.deliveryDay);
  }

  /** The tracking code depends only on the algorithm tag, the type tag, the
      order id and the two timestamps, never on the product id or the phone
      number. */
  lemma TrackingCodeDependsOnSignatureFields(r: ShippingRecord, r': ShippingRecord, sha256: string -> string)
    requires r.alg == r'.alg && r.typ == r'.typ && r.orderId == r'.orderId
    requires r.issuedAt == r'.issuedAt && r.deliveryDay == r'.deliveryDay
    ensures TrackingCode(r, sha256) == TrackingCode(r', sha256)
  {
  }

  /** A JSON value as json.dump would write it. */
  datatype Json = JStr(str: string) | JNum(num: int)

  const JsonKeys: set<string> := {"alg", "type", "order_id", "issued_at", "delivery_day", "tracking_code"}

  /** to_json: the six exported keys with the current field values. The draft
      reads a field __tracking_code that is never assigned (AttributeError);
      here the value is the tracking_code property. */
  function ToJson(r: ShippingRecord, sha256: string -> string): (j: map<string, Json>)
    ensures j.Keys == JsonKeys
    ensures j["alg"] == JStr(r.alg) && j["type"] == JStr(r.typ) && j["order_id"] == JStr(r.orderId)
    ensures j["issued_at"] == JNum(r.issuedAt) && j["delivery_day"] == JNum(r.deliveryDay)
    ensures j["tracking_code"] == JStr(TrackingCode(r, sha256))
  {
    map["alg" := JStr(r.alg), "type" := JStr(r.typ), "order_id" := JStr(r.orderId),
        "issued_at" := JNum(r.issuedAt), "delivery_day" := JNum(r.deliveryDay),
        "tracking_code" := JStr(TrackingCode(r, sha256))]
  }

  /** The shipment a stored JSON record describes, as far as it can be read
      back: the product id and the phone number are not exported. */
  function RecordOfJson(j: map<string, Json>): (r: ShippingRecord)
    requires {"alg", "type", "order_id", "issued_at", "delivery_day"} <= j.Keys
    requires j["alg"].JStr? && j["type"].JStr? && j["order_id"].JStr?
    requires j["issued_at"].JNum? && j["delivery_day"].JNum?
    ensures r.alg == j["alg"].str && r.typ == j["type"].str && r.orderId == j["order_id"].str
    ensures r.issuedAt == j["issued_at"].num && r.deliveryDay == j["delivery_day"].num
    ensures r.productId == "" && r.phoneNumber == ""
  {
    ShippingRecord(j["alg"].str, j["type"].str, "", j["order_id"].str, "",
                   j["issued_at"].num, j["delivery_day"].num)
  }

  /** Recomputes the tracking code from the signature fields of a stored
      JSON record, as a verifier of the code would. */
  function RecomputeTrackingCode(j: map<string, Json>, sha256: string -> string): (code: string)
    requires {"alg", "type", "order_id", "issued_at", "delivery_day"} <= j.Keys
    requires j["alg"].JStr? && j["type"].JStr? && j["order_id"].JStr?
    requires j["issued_at"].JNum? && j["delivery_day"].JNum?
  {
    TrackingCode(RecordOfJson(j), sha256)
  }

  /** Reading back the JSON view of a shipment recovers every exported field;
      only the product id and the phone number are lost. */
  lemma RecordOfJsonInvertsToJson(r: ShippingRecord, sha256: string -> string)
    ensures RecordOfJson(ToJson(r, sha256)) == r.(productId := "", phoneNumber := "")
  {
  }

  /** The exported tracking code is reproduced from the exported fields. */
  lemma TrackingCodeRoundTrip(r: ShippingRecord, sha256: string -> string)
    ensures var j := ToJson(r, sha256);
      j["tracking_code"] == JStr(RecomputeTrackingCode(j, sha256))
  {
  }

  /** An OrderShipping object: private fields updated in place by the setters. */
  class OrderShipping {
    var alg: string
    var typ: string
    var productId: string
    var orderId: string
    var phoneNumber: string
    var issuedAt: int
    var deliveryDay: int

    /** The current field values. */
    function Fields(): ShippingRecord
      reads this
    {
      ShippingRecord(alg, typ, productId, orderId, phoneNumber, issuedAt, deliveryDay)
    }

    /** `now` stands for the clock reading taken at construction. */
    constructor (productId: string, orderId: string, deliveryPhoneNumber: string, orderType: string, now: int)
      ensures Fields() == NewShipping(productId, orderId, deliveryPhoneNumber, orderType, now)
    {
      alg := "SHA-256";
      typ := "DS";
      this.productId := productId;
      this.orderId := orderId;
      phoneNumber := deliveryPhoneNumber;
      issuedAt := now;
      deliveryDay := now + DeliveryDays(orderType) * SecondsPerDay;
    }

    /** The tracking_id property reads the order id. */
    function TrackingId(): (id: string)
      reads this
      ensures id == Fields().orderId
    {
      orderId
    }

    method SetAlg(value: string)
      modifies this
      ensures Fields() == old(Fields()).(alg := value)
    {
      alg := value;
    }

    method SetProductId(value: string)
      modifies this
      ensures Fields() == old(Fields()).(productId := value)
      ensures Signature(Fields()) == Signature(old(Fields()))
    {
      productId := value;
    }

    /** The tracking_id setter writes the order id. */
    method SetTrackingId(value: string)
      modifies this
      ensures Fields() == old(Fields()).(orderId := value)
      ensures TrackingId() == value
    {
      orderId := value;
    }

    method SetPhoneNumber(value: string)
      modifies this
      ensures Fields() == old(Fields()).(phoneNumber := value)
      ensures Signature(Fields()) == Signature(old(Fields()))
    {
      phoneNumber := value;
    }

    /** Moving the issue time always changes the signature that the
        tracking code is the digest of. */
    method SetIssuedAt(value: int)
      modifies this
      ensures Fields() == old(Fields()).(issuedAt := value)
      ensures value != old(issuedAt) ==> Signature(Fields()) != Signature(old(Fields()))
    {
      issuedAt := value;
      if value != old(issuedAt) && Signature(Fields()) == Signature(old(Fields())) {
        SignatureDeterminesTimes(Fields(), old(Fields()));
      }
    }

    /** Moving the delivery day always changes the signature. */
    method SetDeliveryDay(value: int)
      modifies this
      ensures Fields() == old(Fields()).(deliveryDay := value)
      ensures value != old(deliveryDay) ==> Signature(Fields()) != Signature(old(Fields()))
    {
      deliveryDay := value;
      if value != old(deliveryDay) && Signature(Fields()) == Signature(old(Fields())) {
        SignatureDeterminesTimes(Fields(), old(Fields()));
      }
    }
  }
}

/** The shipments the deliver-product tests build and export. */
module OrderShippingExamples {
  import opened Shipping

  /** A Premium shipment issued at `now` is due one day later, a Regular one
      a week later, and the exported tracking code matches the exported
      fields. */
  method ShipAndExport(orderType: string, now: int, sha256: string -> string)
    returns (j: map<string, Json>)
    ensures j.Keys == JsonKeys
    ensures j["alg"] == JStr("SHA-256") && j["type"] == JStr("DS")
    ensures j["order_id"] == JStr("7628fa19bcb8e965bb73f8a180718f99")
    ensures j["issued_at"] == JNum(now)
    ensures j["delivery_day"] == JNum(if orderType == "Regular" then now + 604800 else now + 86400)
    ensures j["tracking_code"] == JStr(RecomputeTrackingCode(j, sha256))
  {
    var shipping := new OrderShipping("8421691423220", "7628fa19bcb8e965bb73f8a180718f99", "+34123456789", orderType, now);
    j := ToJson(shipping.Fields(), sha256);
    TrackingCodeRoundTrip(shipping.Fields(), sha256);
  }
}
