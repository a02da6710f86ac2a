/**
 * Order registration: the five field validators and OrderManager, which runs
 * them in a fixed order and appends a request record to its store.
 *
 * The validators follow the contract the register-order tests fix (rules and
 * exact messages). The draft implementation differs in several places; each
 * is marked with a "Draft:" comment.
 */
module OrderManagement {
  import opened Digits
  import Ean13

  /** A raw argument: a Python string, or a non-string value (the tests use ints). */
  datatype Raw = Str(s: string) | Int(n: int)

  /** A validator's outcome: the accepted value, or the exception's message. */
  datatype Result<T> = Ok(value: T) | Err(message: string)

  const EanNotDigits := "Invalid ean13 code: not a 13 digit string"
  const EanBadCheckDigit := "Invalid ean13 code: check digit is incorrect"

  const OrderTypeNotString := "Invalid order type: not a string"
  const OrderTypeInvalid := "Invalid order type: string is invalid"

  const AddressNotString := "Invalid address: address is not a string"
  const AddressTooLong := "Invalid address: address is too long"
  const AddressTooShort := "Invalid address: address is too short"
  const AddressNoSpace := "Invalid address: address should contain a space"

  const PhoneNotString := "Invalid phone number: phone number is not a string"
  const PhoneTooShort := "Invalid phone number: phone number is too short"
  const PhoneTooLong := "Invalid phone number: phone number is too long"
  const PhoneWrongAreaCode := "Invalid phone number: wrong area code"

  const ZipNotString := "Invalid zip code: zip code not a string"
  const ZipNotFiveChars := "Invalid zip code: zip code not 5 characters"
  const ZipNotDigits := "Invalid zip code: characters are not digits"
  const ZipBelowRange := "Invalid zip code: zip code is below range"
  const ZipAboveRange := "Invalid zip code: zip code is above range"

  const MinAddressLength := 20
  const MaxAddressLength := 100
  const PhoneLength := 12
  const AreaCode := "+34"
  const ZipLength := 5
  const MinZip := 1001
  const MaxZip := 52006

  /** Draft: validate_ean13 is declared a @staticmethod with two parameters
      (cls, ean13_code), so register_order's call self.validate_ean13(product_id)
      raises TypeError for a missing argument before any check runs; its body
      would return the code unchecked. The docstring and the tests ask for a
      real EAN-13 check, which is what is modelled here. */
  function ValidateEan13(raw: Raw): (r: Result<string>)
    ensures r.Ok? <==> raw.Str? && Ean13.IsEan13(raw.s)
    ensures r.Ok? ==> r.value == raw.s
    ensures r == Err(EanNotDigits) <==> !(raw.Str? && |raw.s| == 13 && AllDigits(raw.s))
    ensures r == Err(EanBadCheckDigit) <==> raw.Str? && |raw.s| == 13 && AllDigits(raw.s) && !Ean13.IsEan13(raw.s)
  {
    match raw
    case Int(_) => Err(EanNotDigits)
    case Str(s) =>
      if |s| != 13 || !AllDigits(s) then Err(EanNotDigits)
      else
        Ean13.CheckDigitMatches(s);
        if Ean13.CheckDigit(s) != DigitValue(s[12]) then Err(EanBadCheckDigit)
        else Ok(s)
  }

  /** Draft: validate_order_type rejects non-strings but never rejects a
      string (it returns the argument when it is NOT "Regular" or "Premium");
      the tests expect "PRE" to be refused. */
  function ValidateOrderType(raw: Raw): (r: Result<string>)
    ensures r.Ok? <==> raw.Str? && (raw.s == "Regular" || raw.s == "Premium")
    ensures r.Ok? ==> r.value == raw.s
    ensures r.Err? ==> r.message == if raw.Str? then OrderTypeInvalid else OrderTypeNotString
  {
    match raw
    case Int(_) => Err(OrderTypeNotString)
    case Str(s) => if s == "Regular" || s == "Premium" then Ok(s) else Err(OrderTypeInvalid)
  }

  /** Draft: validate_address returns its argument unchecked. */
  function ValidateAddress(raw: Raw): (r: Result<string>)
    ensures r.Ok? <==> raw.Str? && MinAddressLength <= |raw.s| <= MaxAddressLength && ' ' in raw.s
    ensures r.Ok? ==> r.value == raw.s
    ensures r == Err(AddressNotString) <==> raw.Int?
    ensures r == Err(AddressTooLong) <==> raw.Str? && |raw.s| > MaxAddressLength
    ensures r == Err(AddressTooShort) <==> raw.Str? && |raw.s| < MinAddressLength
    ensures r == Err(AddressNoSpace) <==>
      raw.Str? && MinAddressLength <= |raw.s| <= MaxAddressLength && ' ' !in raw.s
  {
    match raw
    case Int(_) => Err(AddressNotString)
    case Str(s) =>
      if |s| > MaxAddressLength then Err(AddressTooLong)
      else if |s| < MinAddressLength then Err(AddressTooShort)
      else if ' ' !in s then Err(AddressNoSpace)
      else Ok(s)
  }

  /** Draft: validate_phone_number returns its argument unchecked. */
  function ValidatePhoneNumber(raw: Raw): (r: Result<string>)
    ensures r.Ok? <==> raw.Str? && |raw.s| == PhoneLength && raw.s[..3] == AreaCode
    ensures r.Ok? ==> r.value == raw.s
    ensures r == Err(PhoneNotString) <==> raw.Int?
    ensures r == Err(PhoneTooShort) <==> raw.Str? && |raw.s| < PhoneLength
    ensures r == Err(PhoneTooLong) <==> raw.Str? && |raw.s| > PhoneLength
    ensures r == Err(PhoneWrongAreaCode) <==>
      raw.Str? && |raw.s| == PhoneLength && raw.s[..3] != AreaCode
  {
    match raw
    case Int(_) => Err(PhoneNotString)
    case Str(s) =>
      if |s| < PhoneLength then Err(PhoneTooShort)
      else if |s| > PhoneLength then Err(PhoneTooLong)
      else if s[..3] != AreaCode then Err(PhoneWrongAreaCode)
      else Ok(s)
  }

  /** Draft: validate_zip_code only checks the type, and its message
      "Invalid zip code: not a string" lacks the words "zip code" that the
      tests expect. */
  function ValidateZipCode(raw: Raw): (r: Result<string>)
    ensures r.Ok? <==>
      raw.Str? && |raw.s| == ZipLength && AllDigits(raw.s) &&
      MinZip <= DecimalValue(raw.s) <= MaxZip
    ensures r.Ok? ==> r.value == raw.s
    ensures r == Err(ZipNotString) <==> raw.Int?
    ensures r == Err(ZipNotFiveChars) <==> raw.Str? && |raw.s| != ZipLength
    ensures r == Err(ZipNotDigits) <==> raw.Str? && |raw.s| == ZipLength && !AllDigits(raw.s)
    ensures r == Err(ZipBelowRange) <==>
      raw.Str? && |raw.s| == ZipLength && AllDigits(raw.s) && DecimalValue(raw.s) < MinZip
    ensures r == Err(ZipAboveRange) <==>
      raw.Str? && |raw.s| == ZipLength && AllDigits(raw.s) && DecimalValue(raw.s) > MaxZip
  {
    match raw
    case Int(_) => Err(ZipNotString)
    case Str(s) =>
      if |s| != ZipLength then Err(ZipNotFiveChars)
      else if !AllDigits(s) then Err(ZipNotDigits)
      else if DecimalValue(s) <= 1000 then Err(ZipBelowRange)
      else if DecimalValue(s) >= 52007 then Err(ZipAboveRange)
      else Ok(s)
  }

  /** The content of a registered order; its hash is the order id. */
  datatype OrderRequest = OrderRequest(
    productId: string,
    orderType: string,
    deliveryAddress: string,
    phoneNumber: string,
    zipCode: string,
    timeStamp: int)

  /** One entry of the request store: the order id and the request it names. */
  datatype Record = Record(orderId: string, request: OrderRequest)

  /** The five validators' outcomes, in the order registration runs them. */
  function Checks(productId: Raw, orderType: Raw, address: Raw, phoneNumber: Raw, zipCode: Raw): (cs: seq<Result<string>>)
    ensures |cs| == 5
  {
    [ValidateEan13(productId), ValidateOrderType(orderType), ValidateAddress(address),
     ValidatePhoneNumber(phoneNumber), ValidateZipCode(zipCode)]
  }

  /** Runs the validators in order, stopping at the first failure, and builds
      the request from the accepted fields. */
  function BuildRequest(productId: Raw, orderType: Raw, address: Raw, phoneNumber: Raw, zipCode: Raw, timeStamp: int)
    : (r: Result<OrderRequest>)
    ensures var cs := Checks(productId, orderType, address, phoneNumber, zipCode);
      r.Ok? <==> forall i :: 0 <= i < 5 ==> cs[i].Ok?
    ensures r.Ok? ==>
      && productId.Str? && orderType.Str? && address.Str? && phoneNumber.Str? && zipCode.Str?
      && r.value == OrderRequest(productId.s, orderType.s, address.s, phoneNumber.s, zipCode.s, timeStamp)
    ensures var cs := Checks(productId, orderType, address, phoneNumber, zipCode);
      r.Err? ==> exists i :: 0 <= i < 5 && cs[i].Err? && r.message == cs[i].message &&
                             forall j :: 0 <= j < i ==> cs[j].Ok?
  {
    var cs := Checks(productId, orderType, address, phoneNumber, zipCode);
    if cs[0].Err? then Err(cs[0].message)
    else if cs[1].Err? then Err(cs[1].message)
    else if cs[2].Err? then Err(cs[2].message)
    else if cs[3].Err? then Err(cs[3].message)
    else if cs[4].Err? then Err(cs[4].message)
    else Ok(OrderRequest(cs[0].value, cs[1].value, cs[2].value, cs[3].value, cs[4].value, timeStamp))
  }

  /** The manager's request store; the JSON file it lives in is not modelled.
      `md5` is the fixed derivation of an order id from a request's content,
      the same for every registration. */
  class OrderManager {
    var requests: seq<Record>
    const md5: OrderRequest -> string

    /** `initial` stands for the records the store file already holds; the
        file outlives any one manager. */
    constructor (initial: seq<Record>, md5: OrderRequest -> string)
      ensures requests == initial && this.md5 == md5
    {
      requests := initial;
      this.md5 := md5;
    }

    /** Validates the five fields, stores the request under the id md5 gives
        for it, and returns that id; on a validation failure nothing is stored.
        Draft: register_order opens the store with mode "r", so json.dump on
        that file raises io.UnsupportedOperation and no record is ever written;
        the tests expect the store to grow by one, which is what is modelled. */
    method RegisterOrder(productId: Raw, orderType: Raw, address: Raw, phoneNumber: Raw, zipCode: Raw,
                         timeStamp: int)
      returns (r: Result<string>)
      modifies this
      ensures var b := BuildRequest(productId, orderType, address, phoneNumber, zipCode, timeStamp);
        r == if b.Ok? then Ok(md5(b.value)) else Err(b.message)
      ensures r.Err? ==> requests == old(requests)
      ensures r.Ok? ==> |requests| == |old(requests)| + 1 && requests[..|old(requests)|] == old(requests)
      ensures r.Ok? ==>
        && productId.Str? && orderType.Str? && address.Str? && phoneNumber.Str? && zipCode.Str?
        && requests[|requests| - 1] ==
             Record(r.value, OrderRequest(productId.s, orderType.s, address.s, phoneNumber.s, zipCode.s, timeStamp))
    {
      var b := BuildRequest(productId, orderType, address, phoneNumber, zipCode, timeStamp);
      if b.Err? {
        return Err(b.message);
      }
      var orderId := md5(b.value);
      requests := requests + [Record(orderId, b.value)];
      r := Ok(orderId);
    }
  }
}

/** The register-order tests' inputs and the outcomes they assert. */
module RegisterOrderExamples {
  import opened Digits
  import Ean13
  import opened OrderManagement

  const ValidProductId := "8421691423220"
  const ValidAddress := "C/LISBOA,4, MADRID, SPAIN"
  const ValidPhone := "+34123456789"
  const ValidZip := "28005"

  lemma ValidProductIdIsEan13()
    ensures Ean13.IsEan13(ValidProductId)
  {
    var s0: string := [];
    var s1 := s0 + ['8'];
    Ean13.WeightedSumAppend(s0, '8');
    var s2 := s1 + ['4'];
    Ean13.WeightedSumAppend(s1, '4');
    var s3 := s2 + ['2'];
    Ean13.WeightedSumAppend(s2, '2');
    var s4 := s3 + ['1'];
    Ean13.WeightedSumAppend(s3, '1');
    var s5 := s4 + ['6'];
    Ean13.WeightedSumAppend(s4, '6');
    var s6 := s5 + ['9'];
    Ean13.WeightedSumAppend(s5, '9');
    var s7 := s6 + ['1'];
    Ean13.WeightedSumAppend(s6, '1');
    var s8 := s7 + ['4'];
    Ean13.WeightedSumAppend(s7, '4');
    var s9 := s8 + ['2'];
    Ean13.WeightedSumAppend(s8, '2');
    var s10 := s9 + ['3'];
    Ean13.WeightedSumAppend(s9, '3');
    var s11 := s10 + ['2'];
    Ean13.WeightedSumAppend(s10, '2');
    var s12 := s11 + ['2'];
    Ean13.WeightedSumAppend(s11, '2');
    var s13 := s12 + ['0'];
    Ean13.WeightedSumAppend(s12, '0');
    assert Ean13.WeightedSum(s13) == 90;
    assert s13 == ValidProductId;
  }

  /** The order every success test registers, with either order type. */
  lemma ValidOrderAccepted(orderType: string, timeStamp: int)
    requires orderType == "Regular" || orderType == "Premium"
    ensures BuildRequest(Str(ValidProductId), Str(orderType), Str(ValidAddress), Str(ValidPhone), Str(ValidZip), timeStamp)
         == Ok(OrderRequest(ValidProductId, orderType, ValidAddress, ValidPhone, ValidZip, timeStamp))
  {
    ValidProductIdIsEan13();
    assert ValidAddress[11] == ' ';
    ZipValue(ValidZip);
  }

  /** Registration of the valid order with exactly one field replaced. */
  function WithProductId(p: Raw): (r: Result<OrderRequest>) {
    BuildRequest(p, Str("Regular"), Str(ValidAddress), Str(ValidPhone), Str(ValidZip), 0)
  }

  lemma ProductIdTests()
    ensures WithProductId(Str("842169142322A")) == Err(EanNotDigits)
    ensures WithProductId(Str("8421691423222")) == Err(EanBadCheckDigit)
    ensures WithProductId(Str("842169142322")) == Err(EanNotDigits)
    ensures WithProductId(Str("84216914232222")) == Err(EanNotDigits)
  {
    assert !IsDigit("842169142322A"[12]);
    var bad := "8421691423222";
    ValidProductIdIsEan13();
    Ean13.SingleDigitErrorDetected(ValidProductId, bad, 12);
  }

  /** DecimalValue of a 5-character digit string, digit by digit. */
  lemma ZipValue(z: string)
    requires |z| == 5 && AllDigits(z)
    ensures DecimalValue(z) == DigitValue(z[0]) * 10000 + DigitValue(z[1]) * 1000 +
                               DigitValue(z[2]) * 100 + DigitValue(z[3]) * 10 + DigitValue(z[4])
  {
    assert z[..1][..0] == [];
    assert DecimalValue(z[..1]) == DigitValue(z[0]);
    assert z[..2][..1] == z[..1];
    assert DecimalValue(z[..2]) == DecimalValue(z[..1]) * 10 + DigitValue(z[1]);
    assert z[..3][..2] == z[..2];
    assert DecimalValue(z[..3]) == DecimalValue(z[..2]) * 10 + DigitValue(z[2]);
    assert z[..4][..3] == z[..3];
    assert DecimalValue(z[..4]) == DecimalValue(z[..3]) * 10 + DigitValue(z[3]);
    assert z[..5][..4] == z[..4] && z[..5] == z;
  }

  lemma OrderTypeTests()
    ensures BuildRequest(Str(ValidProductId), Str("PRE"), Str(ValidAddress), Str(ValidPhone), Str(ValidZip), 0)
         == Err(OrderTypeInvalid)
    ensures BuildRequest(Str(ValidProductId), Int(333), Str(ValidAddress), Str(ValidPhone), Str(ValidZip), 0)
         == Err(OrderTypeNotString)
  {
    ValidProductIdIsEan13();
  }

  const LongAddress :=
    "CALLE DE VALLHERMOSOVALLHERMOSOVALLHERMOSOVALLHERMOSOVALLHERMOSOVALLHERMOSOVALLHERMOSOVALLHERMOSO,4, MADRID, SPAIN"

  lemma AddressTests()
    ensures BuildRequest(Str(ValidProductId), Str("Regular"), Int(333), Str(ValidPhone), Str(ValidZip), 0)
         == Err(AddressNotString)
    ensures BuildRequest(Str(ValidProductId), Str("Regular"), Str(LongAddress), Str(ValidPhone), Str(ValidZip), 0)
         == Err(AddressTooLong)
    ensures BuildRequest(Str(ValidProductId), Str("Regular"), Str("C/ ALLE, SPAIN"), Str(ValidPhone), Str(ValidZip), 0)
         == Err(AddressTooShort)
    ensures BuildRequest(Str(ValidProductId), Str("Regular"), Str("C/LISBOA,4,MADRID,SPAIN"), Str(ValidPhone), Str(ValidZip), 0)
         == Err(AddressNoSpace)
  {
    ValidProductIdIsEan13();
  }

  lemma PhoneNumberTests()
    ensures BuildRequest(Str(ValidProductId), Str("Regular"), Str(ValidAddress), Int(34123456789), Str(ValidZip), 0)
         == Err(PhoneNotString)
    ensures BuildRequest(Str(ValidProductId), Str("Regular"), Str(ValidAddress), Str("+3412345678"), Str(ValidZip), 0)
         == Err(PhoneTooShort)
    ensures BuildRequest(Str(ValidProductId), Str("Regular"), Str(ValidAddress), Str("+341234567899"), Str(ValidZip), 0)
         == Err(PhoneTooLong)
    ensures BuildRequest(Str(ValidProductId), Str("Regular"), Str(ValidAddress), Str("+44123456789"), Str(ValidZip), 0)
         == Err(PhoneWrongAreaCode)
  {
    ValidProductIdIsEan13();
    assert ValidAddress[11] == ' ';
    assert "+44123456789"[1] != AreaCode[1];
  }

  function WithZip(z: Raw): (r: Result<OrderRequest>) {
    BuildRequest(Str(ValidProductId), Str("Regular"), Str(ValidAddress), Str(ValidPhone), z, 0)
  }

  lemma ZipCodeTests()
    ensures WithZip(Str("01000")) == Err(ZipBelowRange)
    ensures WithZip(Str("00999")) == Err(ZipBelowRange)
    ensures WithZip(Str("52007")) == Err(ZipAboveRange)
    ensures WithZip(Int(28005)) == Err(ZipNotString)
    ensures WithZip(Str("280005")) == Err(ZipNotFiveChars)
    ensures WithZip(Str("28A05")) == Err(ZipNotDigits)
  {
    ValidProductIdIsEan13();
    assert ValidAddress[11] == ' ';
    ZipValue("01000");
    ZipValue("00999");
    ZipValue("52007");
    assert !IsDigit("28A05"[2]);
  }

  /** Registering the valid order twice on an empty store succeeds both
      times and stores two records, in order, each under the id md5 gives
      for its own content. */
  method RegisterValidOrderTwice(t1: int, t2: int, md5: OrderRequest -> string)
    returns (first: Result<string>, second: Result<string>, stored: seq<Record>)
    ensures first == Ok(md5(OrderRequest(ValidProductId, "Regular", ValidAddress, ValidPhone, ValidZip, t1)))
    ensures second == Ok(md5(OrderRequest(ValidProductId, "Regular", ValidAddress, ValidPhone, ValidZip, t2)))
    ensures stored == [Record(first.value, OrderRequest(ValidProductId, "Regular", ValidAddress, ValidPhone, ValidZip, t1)),
                       Record(second.value, OrderRequest(ValidProductId, "Regular", ValidAddress, ValidPhone, ValidZip, t2))]
    ensures t1 != t2 ==> stored[0].request != stored[1].request
  {
    var manager := new OrderManager([], md5);
    ValidOrderAccepted("Regular", t1);
    ValidOrderAccepted("Regular", t2);
    first := manager.RegisterOrder(Str(ValidProductId), Str("Regular"), Str(ValidAddress), Str(ValidPhone), Str(ValidZip), t1);
    second := manager.RegisterOrder(Str(ValidProductId), Str("Regular"), Str(ValidAddress), Str(ValidPhone), Str(ValidZip), t2);
    stored := manager.requests;
  }
}
