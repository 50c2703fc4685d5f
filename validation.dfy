/** The Joi schemas of the two services: the product payload
    `{ name: string().min(5).required(), quantity: number().integer().min(1).required() }`
    and the sale body `array().items(object({ productId: allow(), quantity: <same rule> }))`.
    Joi stops at the first violation and labels each message with the key it is about. */
module Validation {
  import opened Values

  const MinNameLength: nat := 5

  /** The quoted key with which every Joi message starts, e.g. `"quantity"`. */
  function Label(key: string): string {
    "\"" + key + "\""
  }

  const NameRequired := Label("name") + " is required"
  const NameNotString := Label("name") + " must be a string"
  const NameEmpty := Label("name") + " is not allowed to be empty"
  const NameTooShort := Label("name") + " length must be at least 5 characters long"
  const QuantityRequired := Label("quantity") + " is required"
  const QuantityNotNumber := Label("quantity") + " must be a number"
  const QuantityNotInteger := Label("quantity") + " must be an integer"
  const QuantityTooSmall := Label("quantity") + " must be larger than or equal to 1"
  const ValueNotArray := Label("value") + " must be an array"

  predicate IsMessageAbout(message: string, key: string) {
    Label(key) <= message
  }

  lemma LabelledIsAbout(key: string, rest: string)
    ensures IsMessageAbout(Label(key) + rest, key)
  {
    assert (Label(key) + rest)[..|Label(key)|] == Label(key);
  }

  /** JavaScript's `length` of a string: the number of UTF-16 code units, where a
      character beyond the Basic Multilingual Plane takes two. */
  function Utf16Length(s: string): (n: nat)
    ensures |s| <= n <= 2 * |s|
    ensures n == 0 <==> s == []
  {
    if s == [] then 0
    else (if s[0] as int >= 0x1_0000 then 2 else 1) + Utf16Length(s[1..])
  }

  /** What the name rule accepts; `min(5)` counts UTF-16 code units. */
  predicate ValidName(name: Field) {
    name.Text? && Utf16Length(name.s) >= MinNameLength
  }

  /** What the quantity rule accepts. */
  predicate ValidQuantity(quantity: Field) {
    quantity.Number? && IsInteger(quantity.x) && quantity.x >= 1.0
  }

  function NameError(name: Field): (e: Option<string>)
    ensures e.None? <==> ValidName(name)
    ensures e.Some? ==> IsMessageAbout(e.value, "name")
  {
    match name
    case Absent =>
      LabelledIsAbout("name", " is required");
      Some(NameRequired)
    case Text(s) =>
      if s == "" then
        LabelledIsAbout("name", " is not allowed to be empty");
        Some(NameEmpty)
      else if Utf16Length(s) < MinNameLength then
        LabelledIsAbout("name", " length must be at least 5 characters long");
        Some(NameTooShort)
      else None
    case _ =>
      LabelledIsAbout("name", " must be a string");
      Some(NameNotString)
  }

  function QuantityError(quantity: Field): (e: Option<string>)
    ensures e.None? <==> ValidQuantity(quantity)
    ensures e.Some? ==> IsMessageAbout(e.value, "quantity")
  {
    match quantity
    case Absent =>
      LabelledIsAbout("quantity", " is required");
      Some(QuantityRequired)
    case Number(x) =>
      if !IsInteger(x) then
        LabelledIsAbout("quantity", " must be an integer");
        Some(QuantityNotInteger)
      else if x < 1.0 then
        LabelledIsAbout("quantity", " must be larger than or equal to 1");
        Some(QuantityTooSmall)
      else None
    case _ =>
      LabelledIsAbout("quantity", " must be a number");
      Some(QuantityNotNumber)
  }

  /** The product payload check of `create` and `updateById`: the first violation,
      with `name` examined before `quantity`. */
  function ProductPayloadError(name: Field, quantity: Field): (e: Option<string>)
    ensures e.None? <==> ValidName(name) && ValidQuantity(quantity)
    ensures !ValidName(name) ==> e.Some? && IsMessageAbout(e.value, "name")
    ensures ValidName(name) && !ValidQuantity(quantity) ==> e.Some? && IsMessageAbout(e.value, "quantity")
  {
    match NameError(name)
    case Some(m) => Some(m)
    case None => QuantityError(quantity)
  }

  /** What the item schema accepts: a valid quantity and no key besides
      `productId` and `quantity` (`productId` itself may be anything, even absent). */
  predicate ValidItem(item: RawItem) {
    ValidQuantity(item.quantity) && item.otherKeys == []
  }

  function ItemError(item: RawItem): (e: Option<string>)
    ensures e.None? <==> ValidItem(item)
  {
    match QuantityError(item.quantity)
    case Some(m) => Some(m)
    case None =>
      if item.otherKeys == [] then None
      else Some(Label(item.otherKeys[0]) + " is not allowed")
  }

  /** Joi stops at the first violation: the error of the first item that fails. */
  function FirstItemError(items: seq<RawItem>): (e: Option<string>)
    ensures e.None? <==> forall i :: 0 <= i < |items| ==> ValidItem(items[i])
    ensures e.Some? ==> exists i :: 0 <= i < |items| && ItemError(items[i]) == e
                                    && forall j :: 0 <= j < i ==> ValidItem(items[j])
  {
    if items == [] then None
    else match ItemError(items[0])
      case Some(m) => Some(m)
      case None =>
        var rest := items[1..];
        var e := FirstItemError(rest);
        assert e.Some? ==> exists i :: 1 <= i < |items| && ItemError(items[i]) == e
                                       && forall j :: 0 <= j < i ==> ValidItem(items[j]) by {
          if e.Some? {
            var k :| 0 <= k < |rest| && ItemError(rest[k]) == e && forall j :: 0 <= j < k ==> ValidItem(rest[j]);
            assert ItemError(items[k + 1]) == e;
            assert forall j :: 1 <= j < k + 1 ==> items[j] == rest[j - 1];
          }
        }
        e
  }

  /** `inputProductsQuantityValidation`: a present body must be an array, and every
      element must pass the item schema; the empty array passes, and so does a
      missing body, since the array schema is not `required()`. */
  function InputProductsQuantityValidation(payload: SalePayload): (e: Option<string>)
    ensures e.None? <==> payload.Undefined? ||
                         (payload.Items? && forall i :: 0 <= i < |payload.items| ==> ValidItem(payload.items[i]))
    ensures payload.NotAnArray? ==> e == Some(ValueNotArray)
  {
    match payload
    case Undefined => None
    case NotAnArray => Some(ValueNotArray)
    case Items(items) => FirstItemError(items)
  }

  /** The messages the unit tests expect from the product schema. */
  lemma ProductSchemaMessages()
    ensures ProductPayloadError(Absent, Absent) == Some(NameRequired)
    ensures ProductPayloadError(Number(1.0), Absent) == Some(NameNotString)
    ensures ProductPayloadError(Text("Novo Produto"), Absent) == Some(QuantityRequired)
    ensures ProductPayloadError(Text("Novo Produto"), Number(-12.0)) == Some(QuantityTooSmall)
  {
    assert IsInteger(-12.0);
  }

  /** The messages the unit tests expect from the sale schema. */
  lemma SaleSchemaMessages(productId: Field)
    ensures InputProductsQuantityValidation(NotAnArray) == Some(ValueNotArray)
    ensures InputProductsQuantityValidation(Items([RawItem(productId, Absent, [])])) == Some(QuantityRequired)
    ensures InputProductsQuantityValidation(Items([RawItem(Absent, Absent, ["_id"])])) == Some(QuantityRequired)
    ensures InputProductsQuantityValidation(Items([RawItem(productId, Number(200.0), [])])) == None
  {
    assert [RawItem(productId, Absent, [])][1..] == [];
    assert [RawItem(Absent, Absent, ["_id"])][1..] == [];
    assert IsInteger(200.0);
  }

  /** `min(5)` counts UTF-16 code units: three characters outside the Basic
      Multilingual Plane make a name of length 6, while four plain letters fall short. */
  lemma NameLengthInUtf16Units()
    ensures Utf16Length("\U{1F600}\U{1F600}\U{1F600}") == 6
    ensures ValidName(Text("\U{1F600}\U{1F600}\U{1F600}"))
    ensures NameError(Text("abcd")) == Some(NameTooShort)
  {
  }
}
