# uc3m_logistics order registration and shipment record, in Dafny

This project models two parts of the `uc3m_logistics` order-management package.

**Order registration.** `OrderManager.register_order` runs five field validators in a fixed order: product id (EAN-13), order type, delivery address, phone number and zip code. The first failure aborts registration with that validator's message. On success the manager appends a request record to its request store and returns the order id. The id is the MD5 digest of the request content.

**Shipment record.** `OrderShipping` holds the fields of one shipment: algorithm tag, type tag, product id, order id, phone number, issue time and delivery day. The order type fixes the delivery day: seven days after issue for "Regular", one day for anything else. The tracking code is the SHA-256 digest of a fixed-format signature string. The code recomputes it on every read and never stores it. Property setters update the private fields in place.

Layout:

- `digits.dfy` (module `Digits`): digit strings, their decimal value (Python's `int()` on a digit string), and decimal rendering of integers, proved injective.
- `ean13.dfy` (module `Ean13`): the EAN-13 check digit as defined in section 7.9 of the GS1 General Specifications. The digits are weighted 1, 3, 1, 3, … from the left, and the check digit is (10 − sum mod 10) mod 10. It also proves that this check detects every single-digit substitution.
- `order_manager.dfy` (module `OrderManagement`): raw arguments `Str(s) | Int(n)` stand for Python's `isinstance` test. The five validators are total functions returning `Ok(value) | Err(message)`. `BuildRequest` is the fail-fast composition. Class `OrderManager` holds the request store as a `seq<Record>`, and `RegisterOrder` appends to it. Module `RegisterOrderExamples` states the register-order tests' inputs and expected outcomes as lemmas.
- `order_shipping.dfy` (module `Shipping`): value type `ShippingRecord`, the delivery-day rule, `Signature`, `TrackingCode`, `ToJson`, and class `OrderShipping` with its constructor and setters. Module `OrderShippingExamples` builds and exports a shipment the way the deliver-product tests do.

Hashes and the clock:

- The MD5 and SHA-256 digests are function values (`md5`, fixed when an `OrderManager` is created; `sha256`, a parameter). Nothing is assumed about them.
- The clock reading is a parameter (`timeStamp`, `now`). Timestamps are whole seconds of type `int`.

The validator rules and messages follow the register-order tests (`src/unittest/python/test_register_order_tests.py`), not the draft validators in `order_manager.py`. Several of those drafts are unfinished stubs. Each place where the draft differs from the tested contract has a "Draft:" comment in `order_manager.dfy`:

- `validate_ean13` is declared a `@staticmethod` with two parameters (`cls, ean13_code`). The call `self.validate_ean13(product_id)` in `register_order` therefore raises `TypeError` every time, before any other validator runs or anything is stored.
- `validate_address` and `validate_phone_number` return their argument unchecked.
- `validate_order_type` never rejects a string.
- `register_order` opens the store file with mode `"r"` (read only), so its `json.dump` raises `io.UnsupportedOperation` and no record is ever written. The tests expect the store to grow by one record.
- `validate_zip_code` only checks the type. Its message "Invalid zip code: not a string" also differs from the tested "Invalid zip code: zip code not a string".

The order type is matched case-sensitively against "Regular" and "Premium". The code and the tests both compare it this way, and the shipment's delivery-day rule compares it the same way. No lower-casing is done.

Validators check their conditions in a fixed order:

- address: type, longer than 100, shorter than 20, no space;
- phone number: type, shorter than 12, longer than 12, first three characters not "+34";
- zip code: type, length not 5, non-digit, value ≤ 1000, value ≥ 52007.

The tests fix every message but not always the order between conditions. A non-string product id is refused with "Invalid ean13 code: not a 13 digit string".

## Model

| member | source | states |
|---|---|---|
| `OrderManagement.ValidateEan13` | src/main/python/uc3m_logistics/order_manager.py:16-20 | accepts exactly the strings that are valid EAN-13 codes and returns them unchanged; a non-string, a length other than 13 or a non-digit gives "Invalid ean13 code: not a 13 digit string"; 13 digits with a wrong check digit give "Invalid ean13 code: check digit is incorrect" |
| `Ean13.CheckDigitMatches` | src/main/python/uc3m_logistics/order_manager.py:17-20 | comparing the 13th digit with the computed check digit, (10 − weighted sum mod 10) mod 10, is equivalent to the whole 13-digit weighted sum being a multiple of ten |
| `Ean13.CheckDigit` | src/main/python/uc3m_logistics/order_manager.py:17-20 | the check digit is below ten and completes the weighted sum of the first twelve digits to a multiple of ten |
| `Ean13.CheckDigitRoundsUp` | src/main/python/uc3m_logistics/order_manager.py:17-20 | the check digit equals the weighted sum rounded up to a multiple of ten, minus the sum |
| `Ean13.WeightedSumOneChange` | src/main/python/uc3m_logistics/order_manager.py:17-20 | changing one digit moves the weighted sum by the digit difference times that position's weight |
| `Ean13.SingleDigitErrorDetected` | src/main/python/uc3m_logistics/order_manager.py:17-20 | changing any one digit of a valid EAN-13 code always produces an invalid one |
| `OrderManagement.ValidateOrderType` | src/main/python/uc3m_logistics/order_manager.py:22-27 | accepts exactly "Regular" and "Premium" and returns them unchanged; a non-string gives "Invalid order type: not a string"; any other string gives "Invalid order type: string is invalid" |
| `OrderManagement.ValidateAddress` | src/main/python/uc3m_logistics/order_manager.py:28-29 | accepts exactly the strings of 20 to 100 characters that contain a space; each rejection maps to its own message: not a string, too long (over 100), too short (under 20), should contain a space |
| `OrderManagement.ValidatePhoneNumber` | src/main/python/uc3m_logistics/order_manager.py:31-32 | accepts exactly the 12-character strings that start with "+34"; each rejection maps to its own message: not a string, too short, too long, wrong area code |
| `OrderManagement.ValidateZipCode` | src/main/python/uc3m_logistics/order_manager.py:34-37 | accepts exactly the 5-digit strings whose value lies in 1001..52006; each rejection maps to its own message: not a string, not 5 characters, not digits, below range, above range |
| `OrderManagement.BuildRequest` | src/main/python/uc3m_logistics/order_manager.py:41-46 | succeeds exactly when all five validators accept, with the request holding the submitted strings and the timestamp; on failure the message is that of the first validator, in the order product id, order type, address, phone, zip, that fails |
| `OrderManagement.OrderManager.RegisterOrder` | src/main/python/uc3m_logistics/order_manager.py:39-52 | on a validation failure it returns that message and leaves the store unchanged; on success the store grows by exactly one record, earlier records are unchanged, the new last record holds the five submitted fields and the timestamp, and the returned id is that record's order id, the manager's fixed `md5` digest of the request |
| `OrderManagement.OrderManager.constructor` | src/main/python/uc3m_logistics/order_manager.py:10-14 | a new manager sees the records the store already holds (`initial`), unchanged, and keeps one order-id derivation `md5` for all its registrations; it adds and removes nothing |
| `RegisterOrderExamples.ValidProductIdIsEan13` | src/unittest/python/test_register_order_tests.py:89-94 | "8421691423220" is a valid EAN-13 code |
| `RegisterOrderExamples.ValidOrderAccepted` | src/unittest/python/test_register_order_tests.py:121-132 | the tests' valid order is accepted with order type "Regular" and with "Premium" |
| `RegisterOrderExamples.ProductIdTests` | src/unittest/python/test_register_order_tests.py:95-118 | a letter, a wrong check digit, 12 digits and 14 digits each give the tested EAN-13 message |
| `RegisterOrderExamples.ZipValue` | src/main/python/uc3m_logistics/order_manager.py:34-37 | a five-digit zip code's value is its digits read in base ten |
| `RegisterOrderExamples.OrderTypeTests` | src/unittest/python/test_register_order_tests.py:133-144 | "PRE" and the integer 333 give the tested order-type messages |
| `RegisterOrderExamples.AddressTests` | src/unittest/python/test_register_order_tests.py:153-176 | a non-string, an over-long, a short and a space-less address give the tested address messages |
| `RegisterOrderExamples.PhoneNumberTests` | src/unittest/python/test_register_order_tests.py:185-208 | a non-string, 11 and 13 characters, and a "+44" prefix give the tested phone messages |
| `RegisterOrderExamples.ZipCodeTests` | src/unittest/python/test_register_order_tests.py:217-246 | "01000" and "00999" are below range, "52007" is above, and an integer, six characters and a letter give the tested zip messages |
| `RegisterOrderExamples.RegisterValidOrderTwice` | src/unittest/python/test_register_order_tests.py:24-63 | starting from the empty store that each test's setUp writes, registering the valid order twice on an empty store succeeds both times and stores two records, in order, each holding the submitted fields under its returned id; records registered at different times differ |
| `Shipping.DeliveryDays` | src/main/python/uc3m_logistics/order_shipping.py:16-19 | the offset is 7 days exactly when the order type is "Regular", and 1 day otherwise |
| `Shipping.NewShipping` | src/main/python/uc3m_logistics/order_shipping.py:8-23 | a fresh shipment has alg "SHA-256" and type "DS", keeps the given product id, order id and phone number, and has a delivery day 7 × 86400 s (Regular) or 86400 s (other) after issue, so strictly after it |
| `Shipping.OrderShipping.constructor` | src/main/python/uc3m_logistics/order_shipping.py:8-23 | a new object's fields are exactly the fresh shipment for the given arguments and clock reading |
| `Shipping.Signature` | src/main/python/uc3m_logistics/order_shipping.py:35-39 | the signature is "{alg:" alg ",typ:" type ",order_id:" order id ",issuedate:" issue time ",deliveryday:" delivery day "}", in exactly that field order and with those labels, the timestamps rendered in decimal |
| `Shipping.TrackingCode` | src/main/python/uc3m_logistics/order_shipping.py:74-77 | the tracking code is `sha256` of the signature of the current fields, recomputed on every read; blanking the product id and phone number does not change it |
| `Shipping.SignatureDeterminesTimes` | src/main/python/uc3m_logistics/order_shipping.py:35-39 | with the algorithm tag, type tag and order id fixed, equal signature strings have equal issue times and equal delivery days |
| `Shipping.SignatureTimesInjective` | src/main/python/uc3m_logistics/order_shipping.py:37-39 | the ",issuedate:…,deliveryday:…}" part of the signature determines both timestamps |
| `Digits.IntToStringInjective` | src/main/python/uc3m_logistics/order_shipping.py:38-39 | distinct timestamps render to distinct strings in the signature |
| `Digits.DecimalValueOfNatToString` | src/main/python/uc3m_logistics/order_shipping.py:38-39 | reading back a rendered natural number gives that number |
| `Shipping.TrackingCodeDependsOnSignatureFields` | src/main/python/uc3m_logistics/order_shipping.py:74-77 | the tracking code depends only on alg, type, order id, issue time and delivery day, never on the product id or the phone number |
| `Shipping.ToJson` | src/main/python/uc3m_logistics/order_shipping.py:25-33 | the JSON view has exactly the keys alg, type, order_id, issued_at, delivery_day and tracking_code, with values taken from the current fields and the tracking code computed from them |
| `Shipping.RecordOfJson` | src/main/python/uc3m_logistics/order_shipping.py:25-33 | reading a stored JSON record back gives a shipment whose alg, type, order id, issue time and delivery day are the record's "alg", "type", "order_id", "issued_at" and "delivery_day" values, with empty product id and phone number, which `to_json` does not export |
| `Shipping.RecordOfJsonInvertsToJson` | src/main/python/uc3m_logistics/order_shipping.py:25-33 | reading back the JSON view of any shipment recovers it exactly, except for the product id and phone number, which are not exported |
| `Shipping.TrackingCodeRoundTrip` | src/main/python/uc3m_logistics/order_shipping.py:25-39 | the tracking code in the JSON view equals the one recomputed from that view's own alg, type, order_id, issued_at and delivery_day |
| `Shipping.OrderShipping.TrackingId` | src/main/python/uc3m_logistics/order_shipping.py:57-60 | the tracking_id getter reads the order id field |
| `Shipping.OrderShipping.SetAlg` | src/main/python/uc3m_logistics/order_shipping.py:41-46 | changes the algorithm tag and no other field |
| `Shipping.OrderShipping.SetProductId` | src/main/python/uc3m_logistics/order_shipping.py:48-55 | changes the product id and no other field, and leaves the signature unchanged |
| `Shipping.OrderShipping.SetTrackingId` | src/main/python/uc3m_logistics/order_shipping.py:57-63 | the tracking_id setter writes the order id and no other field; the tracking_id getter then reads the new value |
| `Shipping.OrderShipping.SetPhoneNumber` | src/main/python/uc3m_logistics/order_shipping.py:65-72 | changes the phone number and no other field, and leaves the signature unchanged |
| `Shipping.OrderShipping.SetIssuedAt` | src/main/python/uc3m_logistics/order_shipping.py:80-87 | changes the issue time and no other field; a different value always changes the signature |
| `Shipping.OrderShipping.SetDeliveryDay` | src/main/python/uc3m_logistics/order_shipping.py:89-96 | changes the delivery day and no other field; a different value always changes the signature |
| `OrderShippingExamples.ShipAndExport` | src/unittest/python/test_deliver_product_tests.py:20-28 | a shipment built and exported as in the deliver-product tests has the fixed tags and order id, is due one day after issue when Premium and seven days when Regular, and carries a tracking code that its exported fields reproduce |

## Left out

- The JSON file store: opening, loading, seeking and dumping the request file, and the errors these raise. The store is the `requests` sequence that `RegisterOrder` appends to.
- OrderManagement.OrderManager.RegisterOrder: as written, `register_order` opens the store read-only (mode `"r"`), so `json.dump` fails with `io.UnsupportedOperation` and the store never grows. The model appends the record, as the tests require.
- `OrderManager.__init__` path building and its `print`. The store file outlives any one manager; the constructor takes the records it already holds as a parameter, and the tests empty it in setUp.
- OrderManagement.ValidateEan13: as written, `validate_ean13` is a `@staticmethod` declared with parameters `(cls, ean13_code)`, so `register_order`'s call with one argument raises TypeError and registration never succeeds. The model follows the EAN-13 check that the docstring and the tests require.
- The MD5 and SHA-256 algorithms. Both are uninterpreted function parameters. The model proves that the inputs to the digests differ, not that the digests differ, since digest collisions are not modelled.
- `OrderRequest` and how it derives the order id: order_request.py is not part of this model. The id is `md5` applied to the five fields and the timestamp.
- The wall clock and float timestamps (`datetime.utcnow()`, `datetime.timestamp`). The clock reading is a parameter, timestamps are whole seconds, and microsecond rounding is not modelled.
- Shipping.Signature: as written, the draft concatenates float timestamps to strings, which Python rejects with a TypeError. The model renders each timestamp as its decimal integer rather than as Python's float text ("1678320000.0").
- Shipping.ToJson: the draft's `to_json` reads `self.__tracking_code`, which is never assigned and would raise AttributeError. The model takes the value of the `tracking_code` property instead.
- The plain property getters (`alg`, `product_id`, `phone_number`, `issued_at`, `delivery_day`). They are direct reads of the class's fields. `tracking_id` is modelled by `TrackingId`.
- `deliver_product` and `send_product`, which the tests call: neither exists in order_manager.py, so there is no code to model. The send-product test's directory scanning and exception re-wrapping are left out for the same reason.
