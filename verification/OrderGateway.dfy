/** The client's side of the order connection (`trading/src/order_gateway.rs`): one
    response frame per poll, and a table of orders not yet finished. */
module OrderGateway {
  import opened Types
  import opened Protocol
  import opened Framing

  datatype PendingOrder = PendingOrder(ticker: TickerId, side: Side, price: Price, qty: Qty)

  datatype GatewayState = GatewayState(
    nextOrderId: nat, pending: map<nat, PendingOrder>, recvBuffer: seq<u8>)

  function NewGateway(): GatewayState {
    GatewayState(1, map[], [])
  }

  /** The response ends the order it names. */
  predicate Terminal(r: ClientResponse) {
    match ResponseTypeOf(r.msgType)
    case Some(Canceled) => true
    case Some(CancelRejected) => true
    case Some(InvalidRequest) => true
    case Some(Filled) => r.leavesQty == 0
    case _ => false
  }

  function Send(s: GatewayState, order: PendingOrder): GatewayState {
    s.(nextOrderId := s.nextOrderId + 1, pending := s.pending[s.nextOrderId := order])
  }

  function Poll(s: GatewayState, input: Received): (GatewayState, Option<ClientResponse>) {
    var buffer := s.recvBuffer + BytesOf(input);
    if input.Failed? then (s, None)
    else if |buffer| < CLIENT_RESPONSE_SIZE then (s.(recvBuffer := buffer), None)
    else
      var r := ResponseFromBytes(buffer[..CLIENT_RESPONSE_SIZE]).value;
      var pending := if Terminal(r) then s.pending - {r.clientOrderId} else s.pending;
      (s.(recvBuffer := buffer[CLIENT_RESPONSE_SIZE..], pending := pending), Some(r))
  }

  class OrderGateway {
    var nextOrderId: nat
    var pending: map<nat, PendingOrder>
    var recvBuffer: seq<u8>

    function State(): GatewayState
      reads this
    {
      GatewayState(nextOrderId, pending, recvBuffer)
    }

    constructor ()
      ensures State() == NewGateway()
    {
      nextOrderId, pending, recvBuffer := 1, map[], [];
    }

    method SendNewOrder(ticker: TickerId, side: Side, price: Price, qty: Qty) returns (orderId: nat)
      modifies this
      ensures orderId == old(nextOrderId)
      ensures State() == Send(old(State()), PendingOrder(ticker, side, price, qty))
    {
      orderId := nextOrderId;
      nextOrderId := nextOrderId + 1;
      pending := pending[orderId := PendingOrder(ticker, side, price, qty)];
    }

    method PollOnce(input: Received) returns (response: Option<ClientResponse>)
      modifies this
      ensures State() == Poll(old(State()), input).0
      ensures response == Poll(old(State()), input).1
    {
      hide ResponseFromBytes, ResponseTypeOf;
      match input {
        case Data(data) => recvBuffer := recvBuffer + data;
        case WouldBlock => assert recvBuffer + [] == recvBuffer;
        case Failed => return None;
      }
      if |recvBuffer| < CLIENT_RESPONSE_SIZE {
        return None;
      }
      response := ResponseFromBytes(recvBuffer[..CLIENT_RESPONSE_SIZE]);
      recvBuffer := recvBuffer[CLIENT_RESPONSE_SIZE..];
      var r := response.value;
      match ResponseTypeOf(r.msgType) {
        case Some(Canceled) => pending := pending - {r.clientOrderId};
        case Some(CancelRejected) => pending := pending - {r.clientOrderId};
        case Some(InvalidRequest) => pending := pending - {r.clientOrderId};
        case Some(Filled) => if r.leavesQty == 0 { pending := pending - {r.clientOrderId}; }
        case _ =>
      }
    }
  }

  // ---------------------------------------------------------------- runs

  datatype Event = Sent(order: PendingOrder) | Polled(input: Received)

  function Apply(s: GatewayState, e: Event): GatewayState {
    match e
    case Sent(order) => Send(s, order)
    case Polled(input) => Poll(s, input).0
  }

  function Run(es: seq<Event>): GatewayState {
    if es == [] then NewGateway() else Apply(Run(es[..|es| - 1]), es[|es| - 1])
  }

  /** All bytes received. */
  function Stream(es: seq<Event>): seq<u8> {
    if es == [] then []
    else
      var e := es[|es| - 1];
      Stream(es[..|es| - 1]) + (if e.Polled? then BytesOf(e.input) else [])
  }

  /** All responses returned, in order. */
  function Responses(es: seq<Event>): seq<ClientResponse> {
    if es == [] then []
    else
      var before, e := es[..|es| - 1], es[|es| - 1];
      var r := if e.Polled? then Poll(Run(before), e.input).1 else None;
      Responses(before) + (if r.Some? then [r.value] else [])
  }

  /** The number of orders sent. */
  function SentCount(es: seq<Event>): nat {
    if es == [] then 0 else SentCount(es[..|es| - 1]) + (if es[|es| - 1].Sent? then 1 else 0)
  }

  function ResponseAt(b: seq<u8>): ClientResponse
    requires |b| == CLIENT_RESPONSE_SIZE
  {
    ResponseFromBytes(b).value
  }

  /** The first k frames of the stream are spoken for; the buffer is what follows. */
  ghost predicate Aligned(stream: seq<u8>, rs: seq<ClientResponse>, buffer: seq<u8>) {
    && CLIENT_RESPONSE_SIZE * |rs| <= |stream|
    && buffer == stream[CLIENT_RESPONSE_SIZE * |rs|..]
    && |rs| <= |Frames(CLIENT_RESPONSE_SIZE, stream)|
    && forall i | 0 <= i < |rs| :: rs[i] == ResponseAt(Frames(CLIENT_RESPONSE_SIZE, stream)[i])
  }

  /** Later bytes do not change earlier frames. */
  lemma AlignedAppend(stream: seq<u8>, rs: seq<ClientResponse>, buffer: seq<u8>, more: seq<u8>)
    requires Aligned(stream, rs, buffer)
    ensures Aligned(stream + more, rs, buffer + more)
  {
    hide ResponseAt, Frames, Rest;
    FramesAppend(CLIENT_RESPONSE_SIZE, stream, more);
  }

  /** A full buffer starts with the next frame. */
  lemma AlignedTake(stream: seq<u8>, rs: seq<ClientResponse>, buffer: seq<u8>)
    requires Aligned(stream, rs, buffer) && |buffer| >= CLIENT_RESPONSE_SIZE
    ensures Aligned(stream, rs + [ResponseAt(buffer[..CLIENT_RESPONSE_SIZE])], buffer[CLIENT_RESPONSE_SIZE..])
  {
    hide ResponseAt, Frames;
    var k := |rs|;
    FrameAt(CLIENT_RESPONSE_SIZE, stream, k);
    var start := k * CLIENT_RESPONSE_SIZE;
    assert buffer[..CLIENT_RESPONSE_SIZE] == stream[start..start + CLIENT_RESPONSE_SIZE];
  }

  lemma PollKeepsAligned(s: GatewayState, input: Received, stream: seq<u8>, rs: seq<ClientResponse>)
    requires Aligned(stream, rs, s.recvBuffer)
    ensures var (s', r) := Poll(s, input);
      && Aligned(stream + BytesOf(input), rs + (if r.Some? then [r.value] else []), s'.recvBuffer)
      && s'.nextOrderId == s.nextOrderId && s'.pending.Keys <= s.pending.Keys
  {
    hide Aligned, ResponseFromBytes, Terminal;
    AlignedAppend(stream, rs, s.recvBuffer, BytesOf(input));
    var buffer := s.recvBuffer + BytesOf(input);
    assert rs + [] == rs;
    if input.Failed? {
      assert stream + [] == stream;
    } else if |buffer| >= CLIENT_RESPONSE_SIZE {
      AlignedTake(stream + BytesOf(input), rs, buffer);
    }
  }

  /** However the stream is cut, the k-th response returned is its k-th frame and no frame
      is skipped; orders get the ids 1, 2, 3, ... and a new id is never pending. */
  lemma {:induction false} ResponsesAreFrames(es: seq<Event>)
    ensures Aligned(Stream(es), Responses(es), Run(es).recvBuffer)
    ensures Run(es).nextOrderId == SentCount(es) + 1
    ensures forall id | id in Run(es).pending :: 1 <= id <= SentCount(es)
  {
    hide Aligned, Poll;
    if es == [] {
      NothingReceived();
    } else {
      var before, e := es[..|es| - 1], es[|es| - 1];
      ResponsesAreFrames(before);
      if e.Polled? {
        PollKeepsAligned(Run(before), e.input, Stream(before), Responses(before));
      } else {
        assert Stream(before) + [] == Stream(before) && Responses(before) + [] == Responses(before);
      }
    }
  }

  lemma NothingReceived()
    ensures Aligned([], [], [])
  {
  }

  /** A poll returns a response exactly when it reads without error and a frame is complete. */
  lemma PollAnswersWhenComplete(es: seq<Event>, input: Received)
    ensures Poll(Run(es), input).1.Some? <==>
      !input.Failed? && |Responses(es)| < |Frames(CLIENT_RESPONSE_SIZE, Stream(es) + BytesOf(input))|
  {
    hide ResponseFromBytes, ResponseAt, Frames, Run, Stream, Responses;
    ResponsesAreFrames(es);
    AlignedAppend(Stream(es), Responses(es), Run(es).recvBuffer, BytesOf(input));
    FrameAt(CLIENT_RESPONSE_SIZE, Stream(es) + BytesOf(input), |Responses(es)|);
  }

  // ---------------------------------------------------------------- which orders are pending

  /** What event j returned. */
  function ReturnedBy(es: seq<Event>, j: nat): Option<ClientResponse>
    requires j < |es|
  {
    if es[j].Polled? then Poll(Run(es[..j]), es[j].input).1 else None
  }

  predicate EndedBy(es: seq<Event>, j: nat, id: nat)
    requires j < |es|
  {
    var r := ReturnedBy(es, j);
    r.Some? && r.value.clientOrderId == id && EndsOrder(r.value)
  }

  /** Event i sent the order with this id, and no response returned since has ended it. */
  ghost predicate SentAndOpen(es: seq<Event>, i: nat, id: nat) {
    && i < |es| && es[i].Sent? && SentCount(es[..i]) + 1 == id
    && forall j | i < j < |es| :: !EndedBy(es, j, id)
  }

  predicate PendingAs(s: GatewayState, es: seq<Event>, i: nat, id: nat) {
    i < |es| && es[i].Sent? && id in s.pending && s.pending[id] == es[i].order
  }

  lemma EndedByPrefix(es: seq<Event>, j: nat, id: nat)
    requires j < |es| - 1
    ensures EndedBy(es, j, id) <==> EndedBy(es[..|es| - 1], j, id)
  {
    assert es[..|es| - 1][..j] == es[..j];
  }

  lemma SentAndOpenStep(es: seq<Event>, i: nat, id: nat)
    requires es != []
    ensures var before, e := es[..|es| - 1], es[|es| - 1];
      SentAndOpen(es, i, id) <==>
        if i == |es| - 1 then e.Sent? && SentCount(before) + 1 == id
        else SentAndOpen(before, i, id) && !EndedBy(es, |es| - 1, id)
  {
    hide EndedBy, SentCount;
    var before := es[..|es| - 1];
    if i < |es| - 1 {
      assert es[..i] == before[..i];
      forall j | i < j < |es| - 1 ensures EndedBy(es, j, id) <==> EndedBy(before, j, id) { EndedByPrefix(es, j, id); }
    }
  }

  lemma StepPending(es: seq<Event>, id: nat)
    requires es != []
    ensures var before, e, s, s' := es[..|es| - 1], es[|es| - 1], Run(es[..|es| - 1]), Run(es);
      if e.Sent? && id == s.nextOrderId then id in s'.pending && s'.pending[id] == e.order
      else if EndedBy(es, |es| - 1, id) then id !in s'.pending
      else (id in s'.pending <==> id in s.pending) && (id in s.pending ==> s'.pending[id] == s.pending[id])
  {
    hide ResponseFromBytes;
  }

  /** Over every run: an order is pending exactly if it was sent and no response returned
      since has ended it, and it is pending as it was sent. */
  lemma {:induction false} PendingExactly(es: seq<Event>, id: nat)
    ensures id in Run(es).pending <==> exists i: nat :: SentAndOpen(es, i, id)
    ensures forall i: nat | SentAndOpen(es, i, id) :: PendingAs(Run(es), es, i, id)
  {
    hide SentAndOpen, Apply, EndedBy;
    if es == [] {
      NothingSent(id);
    } else {
      var before, e := es[..|es| - 1], es[|es| - 1];
      PendingExactly(before, id);
      ResponsesAreFrames(before);
      StepPending(es, id);
      SentAndOpenStep(es, |es| - 1, id);
      forall i: nat
        ensures SentAndOpen(es, i, id) && i != |es| - 1 <==> SentAndOpen(before, i, id) && !EndedBy(es, |es| - 1, id)
      {
        SentAndOpenStep(es, i, id);
        SentEarlier(before, i, id);
      }
      forall i: nat | SentAndOpen(es, i, id) ensures PendingAs(Run(es), es, i, id) {
        SentEarlier(es, i, id);
        if i < |es| - 1 {
          assert SentAndOpen(before, i, id) && PendingAs(Run(before), before, i, id) && before[i] == es[i];
        }
      }
    }
  }

  lemma SentEarlier(es: seq<Event>, i: nat, id: nat)
    ensures SentAndOpen(es, i, id) ==> i < |es| && es[i].Sent? && 1 <= id
  {
    hide EndedBy;
  }

  lemma NothingSent(id: nat)
    ensures id !in Run([]).pending && forall i :: !SentAndOpen([], i, id)
  {
  }
}
