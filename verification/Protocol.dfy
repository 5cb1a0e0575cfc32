/** The binary messages of `exchange/src/protocol.rs`: packed records whose fields are
    laid out one after another, least significant byte first. */
module Protocol {
  import opened Types

  // ---------------------------------------------------------------- type codes

  datatype RequestType = NewOrder | CancelOrder
  datatype ResponseType = Accepted | Canceled | Filled | CancelRejected | InvalidRequest
  datatype UpdateType = Add | Modify | Cancel | Trade | Snapshot | Clear

  function RequestCode(t: RequestType): u8 {
    if t.NewOrder? then 1 else 2
  }

  function RequestTypeOf(code: u8): (t: Option<RequestType>)
    ensures forall r: RequestType :: t == Some(r) <==> code == RequestCode(r)
  {
    match code
    case 1 => Some(NewOrder)
    case 2 => Some(CancelOrder)
    case _ => None
  }

  function ResponseCode(t: ResponseType): u8 {
    match t
    case Accepted => 1
    case Canceled => 2
    case Filled => 3
    case CancelRejected => 4
    case InvalidRequest => 5
  }

  function ResponseTypeOf(code: u8): (t: Option<ResponseType>)
    ensures forall r: ResponseType :: t == Some(r) <==> code == ResponseCode(r)
  {
    match code
    case 1 => Some(Accepted)
    case 2 => Some(Canceled)
    case 3 => Some(Filled)
    case 4 => Some(CancelRejected)
    case 5 => Some(InvalidRequest)
    case _ => None
  }

  function UpdateCode(t: UpdateType): u8 {
    match t
    case Add => 1
    case Modify => 2
    case Cancel => 3
    case Trade => 4
    case Snapshot => 5
    case Clear => 6
  }

  function UpdateTypeOf(code: u8): (t: Option<UpdateType>)
    ensures forall r: UpdateType :: t == Some(r) <==> code == UpdateCode(r)
  {
    match code
    case 1 => Some(Add)
    case 2 => Some(Modify)
    case 3 => Some(Cancel)
    case 4 => Some(Trade)
    case 5 => Some(Snapshot)
    case 6 => Some(Clear)
    case _ => None
  }

  // ---------------------------------------------------------------- messages

  datatype ClientRequest = ClientRequest(
    msgType: u8, clientId: u32, tickerId: u32, orderId: u64, side: i8, price: i64, qty: u32)

  datatype ClientResponse = ClientResponse(
    msgType: u8, clientId: u32, tickerId: u32, clientOrderId: u64, marketOrderId: u64,
    side: i8, price: i64, execQty: u32, leavesQty: u32)

  datatype MarketUpdate = MarketUpdate(
    msgType: u8, tickerId: u32, orderId: u64, side: i8, price: i64, qty: u32, priority: u64)

  /** The response ends the order it names: a cancel, a rejection or the last fill. */
  predicate EndsOrder(r: ClientResponse) {
    || r.msgType == ResponseCode(ResponseType.Canceled)
    || r.msgType == ResponseCode(CancelRejected)
    || r.msgType == ResponseCode(InvalidRequest)
    || (r.msgType == ResponseCode(Filled) && r.leavesQty == 0)
  }

  const CLIENT_REQUEST_SIZE: nat := 30
  const CLIENT_RESPONSE_SIZE: nat := 42
  const MARKET_UPDATE_SIZE: nat := 34

  // ---------------------------------------------------------------- words as bytes

  function Pow256(w: nat): nat {
    if w == 0 then 1 else 256 * Pow256(w - 1)
  }

  function ToBytes(x: nat, w: nat): (b: seq<u8>)
    ensures |b| == w
  {
    if w == 0 then [] else [x % 256] + ToBytes(x / 256, w - 1)
  }

  function FromBytes(b: seq<u8>): nat {
    if b == [] then 0 else b[0] + 256 * FromBytes(b[1..])
  }

  lemma {:induction false} WordRoundTrip(x: nat, w: nat)
    requires x < Pow256(w)
    ensures FromBytes(ToBytes(x, w)) == x
  {
    if w == 0 {
    } else {
      WordRoundTrip(x / 256, w - 1);
      assert ToBytes(x, w)[1..] == ToBytes(x / 256, w - 1);
    }
  }

  lemma {:induction false} BytesRoundTrip(b: seq<u8>)
    ensures FromBytes(b) < Pow256(|b|)
    ensures ToBytes(FromBytes(b), |b|) == b
  {
    if b == [] {
    } else {
      BytesRoundTrip(b[1..]);
      assert FromBytes(b) % 256 == b[0] && FromBytes(b) / 256 == FromBytes(b[1..]);
    }
  }

  // ---------------------------------------------------------------- packed records

  type Layout = seq<nat>

  const REQUEST_LAYOUT: Layout := [1, 4, 4, 8, 1, 8, 4]
  const RESPONSE_LAYOUT: Layout := [1, 4, 4, 8, 8, 1, 8, 4, 4]
  const UPDATE_LAYOUT: Layout := [1, 4, 8, 1, 8, 4, 8]

  function Size(layout: Layout): nat {
    if layout == [] then 0 else layout[0] + Size(layout[1..])
  }

  predicate Fits(layout: Layout, values: seq<nat>) {
    |layout| == |values| && forall i | 0 <= i < |layout| :: values[i] < Pow256(layout[i])
  }

  function Pack(layout: Layout, values: seq<nat>): (b: seq<u8>)
    requires |layout| == |values|
    ensures |b| == Size(layout)
  {
    if layout == [] then [] else ToBytes(values[0], layout[0]) + Pack(layout[1..], values[1..])
  }

  function Unpack(layout: Layout, b: seq<u8>): (values: seq<nat>)
    requires |b| == Size(layout)
    ensures |values| == |layout|
    decreases |layout|
  {
    if layout == [] then [] else [FromBytes(b[..layout[0]])] + Unpack(layout[1..], b[layout[0]..])
  }

  lemma {:induction false} UnpackPack(layout: Layout, values: seq<nat>)
    requires Fits(layout, values)
    ensures Unpack(layout, Pack(layout, values)) == values
    decreases |layout|
  {
    if layout == [] {
    } else {
      var b := Pack(layout, values);
      assert b[..layout[0]] == ToBytes(values[0], layout[0]);
      assert b[layout[0]..] == Pack(layout[1..], values[1..]);
      WordRoundTrip(values[0], layout[0]);
      UnpackPack(layout[1..], values[1..]);
    }
  }

  lemma {:induction false} PackUnpack(layout: Layout, b: seq<u8>)
    requires |b| == Size(layout)
    ensures Fits(layout, Unpack(layout, b))
    ensures Pack(layout, Unpack(layout, b)) == b
    decreases |layout|
  {
    if layout == [] {
    } else {
      var values := Unpack(layout, b);
      BytesRoundTrip(b[..layout[0]]);
      hide FromBytes, ToBytes, Pow256;
      PackUnpack(layout[1..], b[layout[0]..]);
      assert values[1..] == Unpack(layout[1..], b[layout[0]..]);
      forall i | 0 <= i < |layout| ensures values[i] < Pow256(layout[i]) {
        if i > 0 { assert values[i] == values[1..][i - 1] && layout[i] == layout[1..][i - 1]; }
      }
      assert b == b[..layout[0]] + b[layout[0]..];
    }
  }

  lemma WordSizes()
    ensures Pow256(1) == 0x100 && Pow256(4) == WORD32 && Pow256(8) == WORD64
  {
    assert Pow256(2) == 0x1_0000;
    assert Pow256(4) == 256 * (256 * Pow256(2));
    assert Pow256(6) == 256 * (256 * Pow256(4));
  }

  // ---------------------------------------------------------------- two's complement

  function Unsigned(x: int, modulus: nat): nat
    requires modulus > 0
  {
    x % modulus
  }

  function Signed(x: nat, modulus: nat): int {
    if x < modulus / 2 then x else x - modulus
  }

  lemma SignedInverse(x: nat, modulus: nat)
    requires x < modulus && (modulus == 0x100 || modulus == WORD64)
    ensures Unsigned(Signed(x, modulus), modulus) == x
    ensures -(modulus / 2) <= Signed(x, modulus) < modulus / 2
  {
  }

  // ---------------------------------------------------------------- the three messages

  lemma LayoutSizes()
    ensures Size(REQUEST_LAYOUT) == CLIENT_REQUEST_SIZE
    ensures Size(RESPONSE_LAYOUT) == CLIENT_RESPONSE_SIZE
    ensures Size(UPDATE_LAYOUT) == MARKET_UPDATE_SIZE
    ensures WordColumns(REQUEST_LAYOUT) && WordColumns(RESPONSE_LAYOUT) && WordColumns(UPDATE_LAYOUT)
  {
    LayoutColumns();
    hide WordColumns;
    assert [1, 4, 4, 8, 1, 8, 4][1..] == [4, 4, 8, 1, 8, 4];
    assert [4, 4, 8, 1, 8, 4][1..] == [4, 8, 1, 8, 4];
  }

  lemma LayoutColumns()
    ensures WordColumns(REQUEST_LAYOUT) && WordColumns(RESPONSE_LAYOUT) && WordColumns(UPDATE_LAYOUT)
  {
  }

  predicate WordColumns(layout: Layout) {
    forall i | 0 <= i < |layout| :: layout[i] in {1, 4, 8}
  }

  /** The values fit the columns of a layout of 1, 4 and 8 byte fields. */
  predicate Columns(layout: Layout, v: seq<nat>) {
    && |v| == |layout|
    && forall i | 0 <= i < |layout| ::
         (layout[i] == 1 && v[i] < 0x100) || (layout[i] == 4 && v[i] < WORD32) || (layout[i] == 8 && v[i] < WORD64)
  }

  lemma ColumnsFit(layout: Layout, v: seq<nat>)
    requires WordColumns(layout)
    ensures Columns(layout, v) <==> Fits(layout, v)
  {
    WordSizes();
    hide Pow256;
    if |v| == |layout| {
      forall i | 0 <= i < |layout|
        ensures v[i] < Pow256(layout[i]) <==>
          (layout[i] == 1 && v[i] < 0x100) || (layout[i] == 4 && v[i] < WORD32) || (layout[i] == 8 && v[i] < WORD64)
      {
      }
    }
  }

  lemma UnpackedFits(layout: Layout, b: seq<u8>)
    requires |b| == Size(layout)
    requires WordColumns(layout)
    ensures Columns(layout, Unpack(layout, b))
  {
    PackUnpack(layout, b);
    ColumnsFit(layout, Unpack(layout, b));
  }

  function RequestFields(r: ClientRequest): (v: seq<nat>)
    ensures Columns(REQUEST_LAYOUT, v)
  {
    [r.msgType, r.clientId, r.tickerId, r.orderId, Unsigned(r.side, 0x100), Unsigned(r.price, WORD64), r.qty]
  }

  function RequestOf(v: seq<nat>): ClientRequest
    requires Columns(REQUEST_LAYOUT, v)
  {
    ClientRequest(v[0], v[1], v[2], v[3], Signed(v[4], 0x100), Signed(v[5], WORD64), v[6])
  }

  lemma RequestOfFields(r: ClientRequest)
    ensures RequestOf(RequestFields(r)) == r
  {
  }

  lemma RequestFieldsOf(v: seq<nat>)
    requires Columns(REQUEST_LAYOUT, v)
    ensures RequestFields(RequestOf(v)) == v
  {
    SignedInverse(v[4], 0x100);
    SignedInverse(v[5], WORD64);
    hide Signed, Unsigned;
  }

  function RequestBytes(r: ClientRequest): (b: seq<u8>)
    ensures |b| == CLIENT_REQUEST_SIZE
  {
    LayoutSizes();
    Pack(REQUEST_LAYOUT, RequestFields(r))
  }

  /** `ClientRequest::from_bytes`: every byte string of the right length is a request. */
  function RequestFromBytes(b: seq<u8>): (r: Option<ClientRequest>)
    ensures r.Some? <==> |b| == CLIENT_REQUEST_SIZE
  {
    if |b| != CLIENT_REQUEST_SIZE then None
    else
      LayoutSizes();
      UnpackedFits(REQUEST_LAYOUT, b);
      hide *;
      Some(RequestOf(Unpack(REQUEST_LAYOUT, b)))
  }

  /** A request survives the wire. */
  lemma RequestRoundTrip(r: ClientRequest)
    ensures RequestFromBytes(RequestBytes(r)) == Some(r)
  {
    LayoutSizes();
    ColumnsFit(REQUEST_LAYOUT, RequestFields(r));
    UnpackPack(REQUEST_LAYOUT, RequestFields(r));
    RequestOfFields(r);
    hide Unpack, Pack, Size, RequestFields, RequestOf, Columns, Fits;
  }

  /** Any frame of the right length is the encoding of what it decodes to. */
  lemma RequestFrameRoundTrip(b: seq<u8>)
    requires |b| == CLIENT_REQUEST_SIZE
    ensures RequestBytes(RequestFromBytes(b).value) == b
  {
    LayoutSizes();
    PackUnpack(REQUEST_LAYOUT, b);
    UnpackedFits(REQUEST_LAYOUT, b);
    RequestFieldsOf(Unpack(REQUEST_LAYOUT, b));
    hide Unpack, Pack, Size, RequestFields, RequestOf, Columns;
  }

  function ResponseFields(r: ClientResponse): (v: seq<nat>)
    ensures Columns(RESPONSE_LAYOUT, v)
  {
    [r.msgType, r.clientId, r.tickerId, r.clientOrderId, r.marketOrderId,
     Unsigned(r.side, 0x100), Unsigned(r.price, WORD64), r.execQty, r.leavesQty]
  }

  function ResponseOf(v: seq<nat>): ClientResponse
    requires Columns(RESPONSE_LAYOUT, v)
  {
    ClientResponse(v[0], v[1], v[2], v[3], v[4], Signed(v[5], 0x100), Signed(v[6], WORD64), v[7], v[8])
  }

  lemma ResponseOfFields(r: ClientResponse)
    ensures ResponseOf(ResponseFields(r)) == r
  {
  }

  lemma ResponseFieldsOf(v: seq<nat>)
    requires Columns(RESPONSE_LAYOUT, v)
    ensures ResponseFields(ResponseOf(v)) == v
  {
    SignedInverse(v[5], 0x100);
    SignedInverse(v[6], WORD64);
    hide Signed, Unsigned;
  }

  function ResponseBytes(r: ClientResponse): (b: seq<u8>)
    ensures |b| == CLIENT_RESPONSE_SIZE
  {
    LayoutSizes();
    Pack(RESPONSE_LAYOUT, ResponseFields(r))
  }

  /** `ClientResponse::from_bytes`: every byte string of the right length is a response. */
  function ResponseFromBytes(b: seq<u8>): (r: Option<ClientResponse>)
    ensures r.Some? <==> |b| == CLIENT_RESPONSE_SIZE
  {
    if |b| != CLIENT_RESPONSE_SIZE then None
    else
      LayoutSizes();
      UnpackedFits(RESPONSE_LAYOUT, b);
      hide *;
      Some(ResponseOf(Unpack(RESPONSE_LAYOUT, b)))
  }

  /** A response survives the wire. */
  lemma ResponseRoundTrip(r: ClientResponse)
    ensures ResponseFromBytes(ResponseBytes(r)) == Some(r)
  {
    LayoutSizes();
    ColumnsFit(RESPONSE_LAYOUT, ResponseFields(r));
    UnpackPack(RESPONSE_LAYOUT, ResponseFields(r));
    ResponseOfFields(r);
    hide Unpack, Pack, Size, ResponseFields, ResponseOf, Columns, Fits;
  }

  /** Any frame of the right length is the encoding of what it decodes to. */
  lemma ResponseFrameRoundTrip(b: seq<u8>)
    requires |b| == CLIENT_RESPONSE_SIZE
    ensures ResponseBytes(ResponseFromBytes(b).value) == b
  {
    LayoutSizes();
    PackUnpack(RESPONSE_LAYOUT, b);
    UnpackedFits(RESPONSE_LAYOUT, b);
    ResponseFieldsOf(Unpack(RESPONSE_LAYOUT, b));
    hide Unpack, Pack, Size, ResponseFields, ResponseOf, Columns;
  }

  function UpdateFields(u: MarketUpdate): (v: seq<nat>)
    ensures Columns(UPDATE_LAYOUT, v)
  {
    [u.msgType, u.tickerId, u.orderId, Unsigned(u.side, 0x100), Unsigned(u.price, WORD64), u.qty, u.priority]
  }

  function UpdateOf(v: seq<nat>): MarketUpdate
    requires Columns(UPDATE_LAYOUT, v)
  {
    MarketUpdate(v[0], v[1], v[2], Signed(v[3], 0x100), Signed(v[4], WORD64), v[5], v[6])
  }

  lemma UpdateOfFields(u: MarketUpdate)
    ensures UpdateOf(UpdateFields(u)) == u
  {
  }

  lemma UpdateFieldsOf(v: seq<nat>)
    requires Columns(UPDATE_LAYOUT, v)
    ensures UpdateFields(UpdateOf(v)) == v
  {
    SignedInverse(v[3], 0x100);
    SignedInverse(v[4], WORD64);
    hide Signed, Unsigned;
  }

  function UpdateBytes(u: MarketUpdate): (b: seq<u8>)
    ensures |b| == MARKET_UPDATE_SIZE
  {
    LayoutSizes();
    Pack(UPDATE_LAYOUT, UpdateFields(u))
  }

  /** `MarketUpdate::from_bytes`: every byte string of the right length is a market update. */
  function UpdateFromBytes(b: seq<u8>): (r: Option<MarketUpdate>)
    ensures r.Some? <==> |b| == MARKET_UPDATE_SIZE
  {
    if |b| != MARKET_UPDATE_SIZE then None
    else
      LayoutSizes();
      UnpackedFits(UPDATE_LAYOUT, b);
      hide *;
      Some(UpdateOf(Unpack(UPDATE_LAYOUT, b)))
  }

  /** A market update survives the wire. */
  lemma UpdateRoundTrip(u: MarketUpdate)
    ensures UpdateFromBytes(UpdateBytes(u)) == Some(u)
  {
    LayoutSizes();
    ColumnsFit(UPDATE_LAYOUT, UpdateFields(u));
    UnpackPack(UPDATE_LAYOUT, UpdateFields(u));
    UpdateOfFields(u);
    hide Unpack, Pack, Size, UpdateFields, UpdateOf, Columns, Fits;
  }

  /** Any frame of the right length is the encoding of what it decodes to. */
  lemma UpdateFrameRoundTrip(b: seq<u8>)
    requires |b| == MARKET_UPDATE_SIZE
    ensures UpdateBytes(UpdateFromBytes(b).value) == b
  {
    LayoutSizes();
    PackUnpack(UPDATE_LAYOUT, b);
    UnpackedFits(UPDATE_LAYOUT, b);
    UpdateFieldsOf(Unpack(UPDATE_LAYOUT, b));
    hide Unpack, Pack, Size, UpdateFields, UpdateOf, Columns;
  }
}
