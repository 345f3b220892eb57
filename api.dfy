/** The payload validators of the inventory API client and the gate they put in front
    of each request. The HTTP transport is abstract: a request that passes its
    validator is handed over as a value, one that fails it is rejected with the
    wrapper's error message. */
module Api {

  /** The JavaScript values a payload can be. Numbers are integers. */
  datatype JsValue =
    | Undefined
    | Null
    | JBool(b: bool)
    | JNumber(n: int)
    | JString(s: string)
    | JArray(items: seq<JsValue>)
    | JObject(fields: map<string, JsValue>)

  /** JavaScript truthiness: `undefined`, `null`, `false`, `0` and `""` are falsy,
      everything else (every array and every object, even empty) is truthy. */
  predicate Truthy(v: JsValue) {
    match v
    case Undefined => false
    case Null => false
    case JBool(b) => b
    case JNumber(n) => n != 0
    case JString(s) => s != ""
    case JArray(_) => true
    case JObject(_) => true
  }

  /** `typeof v`; note that `typeof null` is `"object"`. */
  function TypeOf(v: JsValue): string {
    match v
    case Undefined => "undefined"
    case Null => "object"
    case JBool(_) => "boolean"
    case JNumber(_) => "number"
    case JString(_) => "string"
    case JArray(_) => "object"
    case JObject(_) => "object"
  }

  predicate IsArray(v: JsValue) {
    v.JArray?
  }

  /** `v[key]` on an object: the property, or `undefined` when the object lacks it. */
  function Get(v: JsValue, key: string): JsValue {
    match v
    case JObject(fields) => if key in fields then fields[key] else Undefined
    case _ => Undefined
  }

  /** The validator's JSON check: a truthy non-array value whose `typeof` is object. */
  predicate IsJsonObject(v: JsValue) {
    !(!Truthy(v) || TypeOf(v) != "object" || IsArray(v))
  }

  predicate HasTruthy(v: JsValue, key: string) {
    Truthy(Get(v, key))
  }

  const InventoryKeys: seq<string> := ["skuBatchId", "skuId", "warehouseId"]
  const InventoryAggregateKeys: seq<string> := ["skuBatchId", "skuId"]

  /** A plain object that holds every key of `keys` with a truthy value. */
  predicate ObjectWithTruthy(v: JsValue, keys: seq<string>) {
    v.JObject? && forall k :: k in keys ==> k in v.fields && Truthy(v.fields[k])
  }

  /** The JSON check accepts exactly the plain objects: it rejects every falsy value, every
      primitive and every array. */
  lemma IsJsonObjectIsObject(v: JsValue)
    ensures IsJsonObject(v) <==> v.JObject?
  {
  }

  /** `isValidInventoryPayload`: a plain object whose skuBatchId, skuId and warehouseId
      are all present and truthy. */
  function IsValidInventoryPayload(payload: JsValue): (r: bool)
    ensures r <==> ObjectWithTruthy(payload, InventoryKeys)
  {
    IsJsonObjectIsObject(payload);
    if !IsJsonObject(payload)
      || (!HasTruthy(payload, "skuBatchId") || !HasTruthy(payload, "skuId") || !HasTruthy(payload, "warehouseId"))
    then false
    else true
  }

  /** `isValidInventoryAggregatePayload`: a plain object whose skuBatchId and skuId are
      present and truthy. */
  function IsValidInventoryAggregatePayload(payload: JsValue): (r: bool)
    ensures r <==> ObjectWithTruthy(payload, InventoryAggregateKeys)
  {
    IsJsonObjectIsObject(payload);
    if !IsJsonObject(payload) || (!HasTruthy(payload, "skuBatchId") || !HasTruthy(payload, "skuId"))
    then false
    else true
  }

  /** What the inventory validator accepts, the aggregate validator accepts. */
  lemma InventoryValidIsAggregateValid(payload: JsValue)
    requires IsValidInventoryPayload(payload)
    ensures IsValidInventoryAggregatePayload(payload)
  {
    assert forall k :: k in InventoryAggregateKeys ==> k in InventoryKeys;
  }

  /** The aggregate validator does not look at warehouseId: setting or changing it
      never changes the verdict. */
  lemma AggregateIgnoresWarehouseId(fields: map<string, JsValue>, w: JsValue)
    ensures IsValidInventoryAggregatePayload(JObject(fields["warehouseId" := w])) ==
            IsValidInventoryAggregatePayload(JObject(fields))
  {
    assert "warehouseId" != "skuBatchId" && "warehouseId" != "skuId";
  }

  /** Only warehouseId separates the two validators: an object the aggregate validator
      accepts passes the inventory validator exactly when its warehouseId is truthy. */
  lemma InventoryNeedsWarehouseId(payload: JsValue)
    requires IsValidInventoryAggregatePayload(payload)
    ensures IsValidInventoryPayload(payload) <==> HasTruthy(payload, "warehouseId")
  {
    assert InventoryKeys == InventoryAggregateKeys + ["warehouseId"];
  }

  /** Empty strings count as missing fields. */
  lemma EmptyIdRejected(fields: map<string, JsValue>)
    ensures !IsValidInventoryAggregatePayload(JObject(fields["skuId" := JString("")]))
    ensures !IsValidInventoryPayload(JObject(fields["skuId" := JString("")]))
  {
    assert "skuId" in InventoryAggregateKeys && "skuId" in InventoryKeys;
  }

  // ---------------------------------------------------------------------------
  // Request wrappers

  datatype Verb = Post | Put
  datatype Endpoint = Inventory | InventoryAggregate

  const ApiBaseUrl: string := "https://local-inventory.nabis.dev/v1/"

  function EndpointPath(e: Endpoint): string {
    match e
    case Inventory => "inventory"
    case InventoryAggregate => "inventory-aggregate"
  }

  function Url(e: Endpoint): string {
    ApiBaseUrl + EndpointPath(e)
  }

  /** A request as handed to the transport. */
  datatype Request = Request(verb: Verb, url: string, body: JsValue)

  /** A wrapper either hands its request to the transport or throws before reaching it. */
  datatype Outcome = Sent(request: Request) | Rejected(message: string)

  const InventoryFieldsMessage: string :=
    "Required fields (skuBatchId, skuId, warehouseId) are missing in the payload, or payload is not JSON."
  const InventoryAggregateFieldsMessage: string :=
    "Required fields (skuBatchId, skuId) are missing in the payload, or payload is not JSON."

  /** The validator each endpoint is guarded by. */
  predicate Validates(e: Endpoint, payload: JsValue) {
    match e
    case Inventory => IsValidInventoryPayload(payload)
    case InventoryAggregate => IsValidInventoryAggregatePayload(payload)
  }

  function FieldsMessage(e: Endpoint): string {
    match e
    case Inventory => InventoryFieldsMessage
    case InventoryAggregate => InventoryAggregateFieldsMessage
  }

  /** The gate shared by the four wrappers: send the payload unchanged to the endpoint's
      URL when its validator accepts it, throw the endpoint's message otherwise. */
  function Gate(verb: Verb, e: Endpoint, payload: JsValue): (o: Outcome)
    ensures o.Sent? <==> Validates(e, payload)
    ensures o.Sent? ==> o.request == Request(verb, Url(e), payload)
    ensures o.Rejected? ==> o.message == FieldsMessage(e)
  {
    if Validates(e, payload) then Sent(Request(verb, Url(e), payload)) else Rejected(FieldsMessage(e))
  }

  /** `postInventoryRequest`. */
  function PostInventoryRequest(payload: JsValue): (o: Outcome)
    ensures o.Sent? <==> ObjectWithTruthy(payload, InventoryKeys)
    ensures o.Sent? ==> o.request == Request(Post, Url(Inventory), payload)
    ensures o.Rejected? ==> o.message == InventoryFieldsMessage
  {
    Gate(Post, Inventory, payload)
  }

  /** `putInventoryRequest`. */
  function PutInventoryRequest(payload: JsValue): (o: Outcome)
    ensures o.Sent? <==> ObjectWithTruthy(payload, InventoryKeys)
    ensures o.Sent? ==> o.request == Request(Put, Url(Inventory), payload)
    ensures o.Rejected? ==> o.message == InventoryFieldsMessage
  {
    Gate(Put, Inventory, payload)
  }

  /** `postInventoryAggregateRequest`. */
  function PostInventoryAggregateRequest(payload: JsValue): (o: Outcome)
    ensures o.Sent? <==> ObjectWithTruthy(payload, InventoryAggregateKeys)
    ensures o.Sent? ==> o.request == Request(Post, Url(InventoryAggregate), payload)
    ensures o.Rejected? ==> o.message == InventoryAggregateFieldsMessage
  {
    Gate(Post, InventoryAggregate, payload)
  }

  /** `putInventoryAggregateRequest`. */
  function PutInventoryAggregateRequest(payload: JsValue): (o: Outcome)
    ensures o.Sent? <==> ObjectWithTruthy(payload, InventoryAggregateKeys)
    ensures o.Sent? ==> o.request == Request(Put, Url(InventoryAggregate), payload)
    ensures o.Rejected? ==> o.message == InventoryAggregateFieldsMessage
  {
    Gate(Put, InventoryAggregate, payload)
  }

  /** A payload the inventory endpoint takes is taken by the aggregate endpoint too. */
  lemma InventorySentIsAggregateSent(verb: Verb, payload: JsValue)
    requires Gate(verb, Inventory, payload).Sent?
    ensures Gate(verb, InventoryAggregate, payload).Sent?
  {
    InventoryValidIsAggregateValid(payload);
  }
}
