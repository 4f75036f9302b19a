/** The create-order request and its validation by class-validator: every line
    needs an integer productId and an integer quantity (of any sign), userId is
    an optional integer, tableNumber an optional string, and items an array
    (possibly empty) of valid lines. */
module OrderDto {
  import opened Wrappers

  /** A JSON value as it reaches the validation pipe (undefined: key absent). */
  datatype Json =
    | Undefined
    | Null
    | Num(n: real)
    | Str(s: string)
    | Bool(b: bool)
    | Arr(elems: seq<Json>)
    | Obj(fields: map<string, Json>)

  datatype OrderLine = OrderLine(productId: int, quantity: int)

  datatype CreateOrderDto = CreateOrderDto(
    userId: Option<int>, tableNumber: Option<string>, items: seq<OrderLine>)

  /** The request properties whose validation failed. */
  datatype ValidationError = BadRequest(failed: set<string>)

  function Field(v: Json, key: string): Json {
    if v.Obj? && key in v.fields then v.fields[key] else Undefined
  }

  /** @IsInt(): a number with no fractional part. */
  predicate IsInt(v: Json) {
    v.Num? && v.n.Floor as real == v.n
  }

  /** @IsNotEmpty(): anything but '', null and undefined. */
  predicate IsNotEmpty(v: Json) {
    v != Str("") && v != Null && v != Undefined
  }

  /** @IsOptional(): null and undefined skip the other validators. */
  predicate IsAbsent(v: Json) {
    v == Null || v == Undefined
  }

  /** CreateOrderItemDto: both properties @IsInt() and @IsNotEmpty(). */
  function ValidateLine(v: Json): (r: Option<OrderLine>)
    ensures r.Some? <==> v.Obj? && IsInt(Field(v, "productId")) && IsInt(Field(v, "quantity"))
  {
    var pid := Field(v, "productId");
    var qty := Field(v, "quantity");
    if v.Obj? && IsInt(pid) && IsNotEmpty(pid) && IsInt(qty) && IsNotEmpty(qty)
    then Some(OrderLine(pid.n.Floor, qty.n.Floor))
    else None
  }

  /** @ValidateNested({ each: true }) over the array elements. */
  function ValidateLines(vs: seq<Json>): (r: Option<seq<OrderLine>>)
    ensures r.Some? <==> forall k | 0 <= k < |vs| :: ValidateLine(vs[k]).Some?
    ensures r.Some? ==> |r.value| == |vs|
    ensures r.Some? ==> forall k | 0 <= k < |vs| :: r.value[k] == ValidateLine(vs[k]).value
    decreases |vs|
  {
    if vs == [] then Some([])
    else match (ValidateLine(vs[0]), ValidateLines(vs[1..]))
      case (Some(line), Some(rest)) => Some([line] + rest)
      case _ => None
  }

  /** The validation pipe applied to a request body. */
  function Validate(body: Json): (r: Result<CreateOrderDto, ValidationError>)
    ensures r.Ok? <==>
      (IsAbsent(Field(body, "userId")) || IsInt(Field(body, "userId"))) &&
      (IsAbsent(Field(body, "tableNumber")) || Field(body, "tableNumber").Str?) &&
      Field(body, "items").Arr? &&
      forall k | 0 <= k < |Field(body, "items").elems| :: ValidateLine(Field(body, "items").elems[k]).Some?
    ensures r.Err? ==> r.error.failed != {}
  {
    var userId := Field(body, "userId");
    var table := Field(body, "tableNumber");
    var items := Field(body, "items");
    var userOk := IsAbsent(userId) || IsInt(userId);
    var tableOk := IsAbsent(table) || table.Str?;
    var lines := if items.Arr? then ValidateLines(items.elems) else None;
    if userOk && tableOk && lines.Some? then
      Ok(CreateOrderDto(
        if IsAbsent(userId) then None else Some(userId.n.Floor),
        if IsAbsent(table) then None else Some(table.s),
        lines.value))
    else
      Err(BadRequest(
        (if userOk then {} else {"userId"}) +
        (if tableOk then {} else {"tableNumber"}) +
        (if lines.Some? then {} else {"items"})))
  }

  // ---------------------------------------------------------------------
  // Serialisation (JSON.stringify of a request built by a client)

  function LineToJson(line: OrderLine): Json {
    Obj(map["productId" := Num(line.productId as real), "quantity" := Num(line.quantity as real)])
  }

  function LinesToJson(lines: seq<OrderLine>): (r: seq<Json>)
    ensures |r| == |lines| && forall k | 0 <= k < |lines| :: r[k] == LineToJson(lines[k])
  {
    seq(|lines|, k requires 0 <= k < |lines| => LineToJson(lines[k]))
  }

  /** The request body a client sends; absent optional fields are left out. */
  function ToJson(dto: CreateOrderDto): Json {
    var withItems := map["items" := Arr(LinesToJson(dto.items))];
    var withUser := if dto.userId.Some? then withItems["userId" := Num(dto.userId.value as real)] else withItems;
    Obj(if dto.tableNumber.Some? then withUser["tableNumber" := Str(dto.tableNumber.value)] else withUser)
  }

  /** Every well-typed request survives serialisation and validation unchanged;
      in particular a zero or negative quantity is accepted. */
  lemma ValidateToJson(dto: CreateOrderDto)
    ensures Validate(ToJson(dto)) == Ok(dto)
  {
    var body := ToJson(dto);
    var elems := LinesToJson(dto.items);
    assert Field(body, "items") == Arr(elems);
    forall k | 0 <= k < |elems| ensures ValidateLine(elems[k]) == Some(dto.items[k]) {
      var v := elems[k];
      assert Field(v, "productId") == Num(dto.items[k].productId as real);
      assert Field(v, "quantity") == Num(dto.items[k].quantity as real);
    }
    var lines := ValidateLines(elems);
    assert lines.Some?;
    assert lines.value == dto.items;
  }

  /** A request without items, or whose items are not an array, is rejected
      naming "items"; an empty array is accepted. */
  lemma ItemsMustBeArray(body: Json)
    requires !Field(body, "items").Arr?
    ensures Validate(body).Err? && "items" in Validate(body).error.failed
  {
  }

  /** A fractional quantity is rejected. */
  lemma FractionalQuantityRejected(pid: int)
    ensures ValidateLine(Obj(map["productId" := Num(pid as real), "quantity" := Num(0.5)])).None?
    ensures ValidateLine(Obj(map["productId" := Num(pid as real), "quantity" := Num(-3.0)]))
      == Some(OrderLine(pid, -3))
  {
    var v := Obj(map["productId" := Num(pid as real), "quantity" := Num(0.5)]);
    assert Field(v, "quantity") == Num(0.5);
    assert (0.5).Floor == 0;
  }
}
