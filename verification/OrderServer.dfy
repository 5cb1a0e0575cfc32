/** The exchange's TCP gateway (`exchange/src/order_server.rs`): framing of each client's
    byte stream and one global sequence over all of them.

    A poll is driven by what the sockets give: which pending connections are accepted,
    the order in which the hash map is walked, and what each client's read returns. */
module OrderServer {
  import opened Types
  import opened Protocol
  import opened Framing
  import opened Sequencer

  type SequencedRequest = Sequenced<ClientRequest>

  datatype Outcome = Requests(requests: seq<ClientRequest>) | Disconnected

  // ---------------------------------------------------------------- one connection

  predicate Disconnects(input: Received) {
    input.Failed? || input == Data([])
  }

  function Decode(frames: seq<seq<u8>>): (rs: seq<ClientRequest>)
    requires forall i | 0 <= i < |frames| :: |frames[i]| == CLIENT_REQUEST_SIZE
    ensures |rs| == |frames|
  {
    seq(|frames|, i requires 0 <= i < |frames| => RequestFromBytes(frames[i]).value)
  }

  /** The requests a byte stream carries. */
  function RequestsIn(stream: seq<u8>): seq<ClientRequest> {
    Decode(Frames(CLIENT_REQUEST_SIZE, stream))
  }

  function RestOf(stream: seq<u8>): seq<u8> {
    Rest(CLIENT_REQUEST_SIZE, stream)
  }

  function Encode(rs: seq<ClientRequest>): seq<u8> {
    Flatten(EncodedFrames(rs))
  }

  function EncodedFrames(rs: seq<ClientRequest>): (fs: seq<seq<u8>>)
    ensures |fs| == |rs| && forall i | 0 <= i < |fs| :: |fs[i]| == CLIENT_REQUEST_SIZE
  {
    seq(|rs|, i requires 0 <= i < |rs| => RequestBytes(rs[i]))
  }

  /** The stream is read one frame at a time. */
  lemma RequestsStep(s: seq<u8>)
    ensures |s| < CLIENT_REQUEST_SIZE ==> RequestsIn(s) == [] && RestOf(s) == s
    ensures |s| >= CLIENT_REQUEST_SIZE ==>
      && RequestsIn(s) == [RequestFromBytes(s[..CLIENT_REQUEST_SIZE]).value] + RequestsIn(s[CLIENT_REQUEST_SIZE..])
      && RestOf(s) == RestOf(s[CLIENT_REQUEST_SIZE..])
  {
    hide RequestFromBytes;
  }

  lemma RestIsShort(s: seq<u8>)
    ensures |RestOf(s)| < CLIENT_REQUEST_SIZE
  {
  }

  lemma RequestsAppend(a: seq<u8>, b: seq<u8>)
    ensures RequestsIn(a + b) == RequestsIn(a) + RequestsIn(RestOf(a) + b)
    ensures RestOf(a + b) == RestOf(RestOf(a) + b)
  {
    FramesAppend(CLIENT_REQUEST_SIZE, a, b);
    hide RequestFromBytes, Frames, Rest;
  }

  /** One read of a connection: what comes out, and what is buffered then. */
  function ReceiveStep(buffer: seq<u8>, input: Received): (Outcome, seq<u8>) {
    if Disconnects(input) then (Disconnected, buffer)
    else (Requests(RequestsIn(buffer + BytesOf(input))), RestOf(buffer + BytesOf(input)))
  }

  class ClientConnection {
    var recvBuffer: seq<u8>

    constructor (buffered: seq<u8>)
      ensures recvBuffer == buffered
    {
      recvBuffer := buffered;
    }

    method Receive(input: Received) returns (outcome: Outcome)
      modifies this
      ensures (outcome, recvBuffer) == ReceiveStep(old(recvBuffer), input)
    {
      hide RequestsIn, RestOf;
      match input {
        case Data(data) =>
          if data == [] {
            return Disconnected;
          }
          recvBuffer := recvBuffer + data;
        case WouldBlock =>
          assert recvBuffer + [] == recvBuffer;
        case Failed =>
          return Disconnected;
      }
      var requests := ParseMessages();
      return Requests(requests);
    }

    method ParseMessages() returns (requests: seq<ClientRequest>)
      modifies this
      ensures requests == RequestsIn(old(recvBuffer)) && recvBuffer == RestOf(old(recvBuffer))
    {
      hide *;
      requests := [];
      while |recvBuffer| >= CLIENT_REQUEST_SIZE
        invariant requests + RequestsIn(recvBuffer) == RequestsIn(old(recvBuffer))
        invariant RestOf(recvBuffer) == RestOf(old(recvBuffer))
        decreases |recvBuffer|
      {
        RequestsStep(recvBuffer);
        var request := RequestFromBytes(recvBuffer[..CLIENT_REQUEST_SIZE]);
        if request.Some? {
          requests := requests + [request.value];
          recvBuffer := recvBuffer[CLIENT_REQUEST_SIZE..];
        } else {
          // The source would skip one byte here; every full frame decodes.
          assert false;
        }
      }
      RequestsStep(recvBuffer);
    }
  }

  /** A connection over a sequence of reads: what it handed out, what it buffers, and
      whether it is still open. */
  datatype Session = Session(requests: seq<ClientRequest>, buffer: seq<u8>, open: bool)

  /** The server drops a connection at the first read that disconnects it. */
  function ReceiveAll(buffer: seq<u8>, inputs: seq<Received>): Session
    decreases |inputs|
  {
    if inputs == [] then Session([], buffer, true)
    else
      var (outcome, rest) := ReceiveStep(buffer, inputs[0]);
      match outcome
      case Disconnected => Session([], rest, false)
      case Requests(rs) => var later := ReceiveAll(rest, inputs[1..]); later.(requests := rs + later.requests)
  }

  /** The bytes read before the connection closed, or all of them. */
  function BytesBeforeClose(inputs: seq<Received>): seq<u8> {
    if inputs == [] || Disconnects(inputs[0]) then [] else BytesOf(inputs[0]) + BytesBeforeClose(inputs[1..])
  }

  predicate StaysOpen(inputs: seq<Received>) {
    forall i | 0 <= i < |inputs| :: !Disconnects(inputs[i])
  }

  lemma FirstRead(buffer: seq<u8>, inputs: seq<Received>)
    requires inputs != [] && !Disconnects(inputs[0])
    ensures var stream := buffer + BytesOf(inputs[0]);
      var later := ReceiveAll(RestOf(stream), inputs[1..]);
      && ReceiveAll(buffer, inputs) == later.(requests := RequestsIn(stream) + later.requests)
      && buffer + BytesBeforeClose(inputs) == stream + BytesBeforeClose(inputs[1..])
  {
    hide RequestsIn, RestOf, BytesOf, Disconnects;
    ConcatAssociates(buffer, BytesOf(inputs[0]), BytesBeforeClose(inputs[1..]));
  }

  lemma NoMoreReads(buffer: seq<u8>, inputs: seq<Received>)
    requires |buffer| < CLIENT_REQUEST_SIZE && (inputs == [] || Disconnects(inputs[0]))
    ensures var stream := buffer + BytesBeforeClose(inputs);
      ReceiveAll(buffer, inputs) == Session(RequestsIn(stream), RestOf(stream), inputs == [])
  {
    hide RequestsIn, RestOf, Disconnects;
    assert buffer + [] == buffer;
    RequestsStep(buffer);
  }

  lemma StaysOpenStep(inputs: seq<Received>)
    requires inputs != []
    ensures StaysOpen(inputs) <==> !Disconnects(inputs[0]) && StaysOpen(inputs[1..])
  {
    hide Disconnects;
    assert inputs == [inputs[0]] + inputs[1..];
  }

  /** A session hands out what one read of everything before the close would. */
  lemma {:induction false} SessionIsOneRead(buffer: seq<u8>, inputs: seq<Received>)
    requires |buffer| < CLIENT_REQUEST_SIZE
    ensures var stream := buffer + BytesBeforeClose(inputs);
      ReceiveAll(buffer, inputs) == Session(RequestsIn(stream), RestOf(stream), StaysOpen(inputs))
    decreases |inputs|
  {
    hide ReceiveAll, RequestsIn, RestOf, BytesBeforeClose, BytesOf, Disconnects;
    if inputs == [] || Disconnects(inputs[0]) {
      NoMoreReads(buffer, inputs);
    } else {
      hide StaysOpen;
      var stream := buffer + BytesOf(inputs[0]);
      RestIsShort(stream);
      SessionIsOneRead(RestOf(stream), inputs[1..]);
      FirstRead(buffer, inputs);
      StaysOpenStep(inputs);
      RequestsAppend(stream, BytesBeforeClose(inputs[1..]));
    }
  }

  lemma EncodeDecode(rs: seq<ClientRequest>)
    ensures RequestsIn(Encode(rs)) == rs && RestOf(Encode(rs)) == []
  {
    hide Frames, Rest, RequestBytes, RequestFromBytes, Flatten;
    var fs := EncodedFrames(rs);
    FramesOfFlatten(CLIENT_REQUEST_SIZE, fs);
    forall i | 0 <= i < |rs| ensures Decode(fs)[i] == rs[i] {
      RequestRoundTrip(rs[i]);
    }
  }

  /** No byte of a stream is lost or made up: the requests it carries encode to all of it
      but the incomplete frame at its end. */
  lemma DecodeEncode(stream: seq<u8>)
    ensures Encode(RequestsIn(stream)) + RestOf(stream) == stream
  {
    hide Frames, Rest, RequestBytes, RequestFromBytes, Flatten;
    var fs := Frames(CLIENT_REQUEST_SIZE, stream);
    FramesCover(CLIENT_REQUEST_SIZE, stream);
    forall i | 0 <= i < |fs| ensures EncodedFrames(Decode(fs))[i] == fs[i] {
      RequestFrameRoundTrip(fs[i]);
    }
    assert EncodedFrames(Decode(fs)) == fs;
  }

  /** Over any reads, the requests handed out and the bytes still buffered, less than a
      frame, are together what was read before the connection closed; it is closed exactly
      if some read disconnected it. */
  lemma SessionLosesNothing(inputs: seq<Received>)
    ensures var session := ReceiveAll([], inputs);
      && Encode(session.requests) + session.buffer == BytesBeforeClose(inputs)
      && |session.buffer| < CLIENT_REQUEST_SIZE
      && session.open == StaysOpen(inputs)
  {
    hide ReceiveAll, RequestsIn, RestOf, Encode, BytesBeforeClose, StaysOpen;
    var stream := BytesBeforeClose(inputs);
    assert [] + stream == stream;
    SessionIsOneRead([], inputs);
    DecodeEncode(stream);
    RestIsShort(stream);
  }

  /** However the encoding of a request list is cut into reads, with reads that would block
      between them and whatever follows a close, exactly those requests come out, in order,
      and nothing stays buffered. */
  lemma ChunkingDoesNotMatter(rs: seq<ClientRequest>, inputs: seq<Received>)
    requires BytesBeforeClose(inputs) == Encode(rs)
    ensures ReceiveAll([], inputs) == Session(rs, [], StaysOpen(inputs))
  {
    SessionIsOneRead([], inputs);
    assert [] + BytesBeforeClose(inputs) == Encode(rs);
    EncodeDecode(rs);
    hide *;
  }

  /** If a list is cut off, at a frame's end or within one, what comes out are its first
      requests: as many as were complete. */
  lemma CutOffSession(rs: seq<ClientRequest>, inputs: seq<Received>)
    requires BytesBeforeClose(inputs) <= Encode(rs)
    ensures var n := |BytesBeforeClose(inputs)| / CLIENT_REQUEST_SIZE;
      n <= |rs| && ReceiveAll([], inputs).requests == rs[..n]
  {
    hide ReceiveAll, RequestsIn, RestOf, Encode, BytesBeforeClose, StaysOpen;
    var read := BytesBeforeClose(inputs);
    var unread := Encode(rs)[|read|..];
    assert [] + read == read;
    SessionIsOneRead([], inputs);
    assert Encode(rs) == read + unread;
    EncodeDecode(rs);
    RequestsAppend(read, unread);
    RequestsCount(read);
  }

  lemma RequestsCount(stream: seq<u8>)
    ensures |RequestsIn(stream)| == |stream| / CLIENT_REQUEST_SIZE
  {
    var n := |stream| / CLIENT_REQUEST_SIZE;
    FrameAt(CLIENT_REQUEST_SIZE, stream, n);
    if n > 0 {
      FrameAt(CLIENT_REQUEST_SIZE, stream, n - 1);
    }
  }

  // ---------------------------------------------------------------- one poll

  type Buffers = map<ConnectionId, seq<u8>>

  datatype Poll = Poll(accepts: seq<bool>, order: seq<ConnectionId>, inputs: map<ConnectionId, Received>)

  datatype ServerState = ServerState(clients: Buffers, nextSequence: nat, nextClient: ConnectionId)

  function NewServer(): ServerState {
    ServerState(map[], 1, 1)
  }

  /** Each pending connection takes an id; those whose socket can be configured are kept. */
  function Accept(s: ServerState, accepts: seq<bool>): ServerState
    decreases |accepts|
  {
    if accepts == [] then s
    else
      var clients := if accepts[0] then s.clients[s.nextClient := []] else s.clients;
      Accept(s.(clients := clients, nextClient := s.nextClient + 1), accepts[1..])
  }

  /** The walk visits every connected client once. */
  ghost predicate Enumerates(order: seq<ConnectionId>, clients: Buffers) {
    && (forall i, j | 0 <= i < j < |order| :: order[i] != order[j])
    && (forall c :: c in order <==> c in clients)
  }

  function InputFor(p: Poll, c: ConnectionId): Received {
    if c in p.inputs then p.inputs[c] else WouldBlock
  }

  /** The requests client c contributes to a poll, given what it had buffered. */
  function Contribution(p: Poll, c: ConnectionId, buffer: seq<u8>): seq<ClientRequest> {
    if Disconnects(InputFor(p, c)) then [] else RequestsIn(buffer + BytesOf(InputFor(p, c)))
  }

  function BufferOf(clients: Buffers, c: ConnectionId): seq<u8> {
    if c in clients then clients[c] else []
  }

  function WalkOf(p: Poll, clients: Buffers, order: seq<ConnectionId>): (w: Walk<ClientRequest>)
    ensures |w| == |order|
  {
    seq(|order|, i requires 0 <= i < |order| => (order[i], Contribution(p, order[i], BufferOf(clients, order[i]))))
  }

  /** The clients that stay, with what each still buffers. */
  function Survivors(p: Poll, clients: Buffers): Buffers {
    map c | c in clients && !Disconnects(InputFor(p, c)) :: RestOf(clients[c] + BytesOf(InputFor(p, c)))
  }

  function PollOutput(s: ServerState, p: Poll): seq<SequencedRequest>
  {
    var s1 := Accept(s, p.accepts);
    Number(WalkOf(p, s1.clients, p.order), s1.nextSequence)
  }

  function PollState(s: ServerState, p: Poll): ServerState
  {
    var s1 := Accept(s, p.accepts);
    s1.(clients := Survivors(p, s1.clients), nextSequence := s1.nextSequence + |PollOutput(s, p)|)
  }

  /** The buffers and departures after the first i clients of the walk were served. */
  ghost predicate Served(p: Poll, before: Buffers, after: Buffers, gone: set<ConnectionId>, i: nat)
  {
    && after.Keys == before.Keys
    && forall j | 0 <= j < |p.order| ::
         && p.order[j] in before
         && (p.order[j] in gone <==> j < i && Disconnects(InputFor(p, p.order[j])))
         && (j >= i ==> after[p.order[j]] == before[p.order[j]])
         && (j < i && p.order[j] !in gone ==>
               after[p.order[j]] == RestOf(before[p.order[j]] + BytesOf(InputFor(p, p.order[j]))))
  }

  lemma NothingServed(p: Poll, clients: Buffers, next: nat)
    requires Enumerates(p.order, clients)
    ensures Served(p, clients, clients, {}, 0)
    ensures Number(WalkOf(p, clients, p.order)[..0], next) == []
  {
    hide InputFor, Contribution;
  }

  /** The next client still has its old buffer, and extends the numbering. */
  lemma NextToServe(p: Poll, before: Buffers, after: Buffers, gone: set<ConnectionId>, i: nat, next: nat)
    requires i < |p.order| && Served(p, before, after, gone, i)
    ensures var c, walk := p.order[i], WalkOf(p, before, p.order);
      && c in before && c in after && after[c] == before[c]
      && var done, rs := Number(walk[..i], next), Contribution(p, c, before[c]);
         Number(walk[..i + 1], next) == done + Tag(next + |done|, c, rs)
  {
    hide InputFor, Contribution, Number, RestOf, BytesOf;
    var c, walk := p.order[i], WalkOf(p, before, p.order);
    var rs := Contribution(p, c, before[c]);
    assert walk[..i + 1] == walk[..i] + [(c, rs)];
    NumberAppend(walk[..i], [(c, rs)], next);
    NumberOne(c, rs, next + |Number(walk[..i], next)|);
  }

  lemma ServeNext(p: Poll, before: Buffers, after: Buffers, gone: set<ConnectionId>, i: nat, buffer: seq<u8>)
    requires Enumerates(p.order, before) && i < |p.order|
    requires Served(p, before, after, gone, i)
    requires !Disconnects(InputFor(p, p.order[i])) ==>
      buffer == RestOf(before[p.order[i]] + BytesOf(InputFor(p, p.order[i])))
    ensures var gone' := if Disconnects(InputFor(p, p.order[i])) then gone + {p.order[i]} else gone;
      Served(p, before, after[p.order[i] := buffer], gone', i + 1)
  {
    hide RestOf, InputFor, Disconnects, BytesOf;
  }

  lemma AllServed(p: Poll, before: Buffers, after: Buffers, gone: set<ConnectionId>)
    requires Enumerates(p.order, before) && Served(p, before, after, gone, |p.order|)
    ensures after - gone == Survivors(p, before)
  {
    hide RestOf, InputFor, Disconnects, BytesOf;
    forall c | c in before
      ensures c in gone <==> Disconnects(InputFor(p, c))
      ensures c !in gone ==> after[c] == RestOf(before[c] + BytesOf(InputFor(p, c)))
    {
      var j :| 0 <= j < |p.order| && p.order[j] == c;
    }
  }

  class OrderServer {
    var clients: Buffers
    var nextSequence: nat
    var nextClient: ConnectionId

    function State(): ServerState
      reads this
    {
      ServerState(clients, nextSequence, nextClient)
    }

    constructor ()
      ensures State() == NewServer()
    {
      clients, nextSequence, nextClient := map[], 1, 1;
    }

    method AcceptConnections(accepts: seq<bool>)
      modifies this
      ensures State() == Accept(old(State()), accepts)
    {
      var i := 0;
      while i < |accepts|
        invariant 0 <= i <= |accepts|
        invariant Accept(State(), accepts[i..]) == Accept(old(State()), accepts)
      {
        var id := nextClient;
        nextClient := nextClient + 1;
        if accepts[i] {
          clients := clients[id := []];
        }
        i := i + 1;
      }
    }

    method PollOnce(p: Poll) returns (requests: seq<SequencedRequest>)
      requires Enumerates(p.order, Accept(State(), p.accepts).clients)
      modifies this
      ensures State() == PollState(old(State()), p)
      ensures requests == PollOutput(old(State()), p)
    {
      hide Accept, RequestsIn, RestOf, Number, Survivors;
      AcceptConnections(p.accepts);
      ghost var walk := WalkOf(p, clients, p.order);
      ghost var first := nextSequence;
      var disconnected;
      requests, disconnected := CollectRequests(p);
      clients := clients - disconnected;
      NumbersAreConsecutive(walk, first);
      assert StrictlyAscending(requests) && Ascending(requests);
      var sorted: seq<SequencedRequest> :| Ascending(sorted) && multiset(requests) == multiset(sorted);
      SortChangesNothing(requests, sorted);
      return sorted;
    }

    /** The walk over all clients: receive, number, note who left. */
    method CollectRequests(p: Poll) returns (requests: seq<SequencedRequest>, disconnected: set<ConnectionId>)
      requires Enumerates(p.order, clients)
      modifies this
      ensures requests == Number(WalkOf(p, old(clients), p.order), old(nextSequence))
      ensures nextSequence == old(nextSequence) + |requests| && nextClient == old(nextClient)
      ensures clients - disconnected == Survivors(p, old(clients))
    {
      hide *;
      ghost var walk := WalkOf(p, clients, p.order);
      requests, disconnected := [], {};
      var i := 0;
      NothingServed(p, clients, nextSequence);
      while i < |p.order|
        invariant 0 <= i <= |p.order| == |walk|
        invariant requests == Number(walk[..i], old(nextSequence))
        invariant nextSequence == old(nextSequence) + |requests| && nextClient == old(nextClient)
        invariant Served(p, old(clients), clients, disconnected, i)
      {
        var c := p.order[i];
        NextToServe(p, old(clients), clients, disconnected, i, old(nextSequence));
        var received, buffer, gone := ReceiveFrom(p, c);
        var tagged := NumberRequests(c, received);
        requests := requests + tagged;
        ServeNext(p, old(clients), clients, disconnected, i, buffer);
        clients := clients[c := buffer];
        if gone {
          disconnected := disconnected + {c};
        }
        i := i + 1;
      }
      assert walk[..i] == walk;
      AllServed(p, old(clients), clients, disconnected);
    }

    method ReceiveFrom(p: Poll, c: ConnectionId)
      returns (received: seq<ClientRequest>, buffer: seq<u8>, gone: bool)
      requires c in clients
      ensures received == Contribution(p, c, clients[c])
      ensures gone <==> Disconnects(InputFor(p, c))
      ensures !gone ==> buffer == RestOf(clients[c] + BytesOf(InputFor(p, c)))
    {
      hide RequestsIn, RestOf;
      var connection := new ClientConnection(clients[c]);
      var outcome := connection.Receive(InputFor(p, c));
      gone := outcome.Disconnected?;
      received := if gone then [] else outcome.requests;
      buffer := connection.recvBuffer;
    }

    /** `FifoSequencer::next` for each request of one client. */
    method NumberRequests(c: ConnectionId, received: seq<ClientRequest>) returns (tagged: seq<SequencedRequest>)
      modifies `nextSequence
      ensures tagged == Tag(old(nextSequence), c, received)
      ensures nextSequence == old(nextSequence) + |received|
    {
      tagged := [];
      var i := 0;
      while i < |received|
        invariant 0 <= i <= |received|
        invariant nextSequence == old(nextSequence) + i
        invariant tagged == Tag(old(nextSequence), c, received)[..i]
      {
        tagged := tagged + [Sequenced(nextSequence, c, received[i])];
        nextSequence := nextSequence + 1;
        i := i + 1;
      }
    }
  }

  // ---------------------------------------------------------------- all polls

  function RunState(polls: seq<Poll>): ServerState {
    if polls == [] then NewServer() else PollState(RunState(polls[..|polls| - 1]), polls[|polls| - 1])
  }

  function AllOutput(polls: seq<Poll>): seq<SequencedRequest> {
    if polls == [] then []
    else AllOutput(polls[..|polls| - 1]) + PollOutput(RunState(polls[..|polls| - 1]), polls[|polls| - 1])
  }

  /** The clients a poll serves: those connected before and those it accepts. */
  function ClientsServed(s: ServerState, p: Poll): Buffers {
    Accept(s, p.accepts).clients
  }

  /** How many connections were pending at all polls together; they get the ids 1, 2, 3, ... */
  function Attempts(polls: seq<Poll>): nat {
    if polls == [] then 0 else Attempts(polls[..|polls| - 1]) + |polls[|polls| - 1].accepts|
  }

  /** After the polls before it, poll p accepts connection c. */
  predicate Arrives(before: seq<Poll>, p: Poll, c: ConnectionId) {
    Attempts(before) < c <= Attempts(before) + |p.accepts| && p.accepts[c - Attempts(before) - 1]
  }

  /** Connection c is served by poll p: it has just arrived or is still open. */
  predicate Serves(before: seq<Poll>, p: Poll, c: ConnectionId) {
    Arrives(before, p, c) || IsOpen(before, c)
  }

  /** Connection c has arrived, and no poll since has found it disconnected. */
  predicate IsOpen(polls: seq<Poll>, c: ConnectionId) {
    polls != [] &&
    var before, p := polls[..|polls| - 1], polls[|polls| - 1];
    (Arrives(before, p, c) || IsOpen(before, c)) && !Disconnects(InputFor(p, c))
  }

  /** The bytes client c sent while it was open. */
  function Delivered(polls: seq<Poll>, c: ConnectionId): seq<u8> {
    if polls == [] then []
    else
      var before, p := polls[..|polls| - 1], polls[|polls| - 1];
      if Serves(before, p, c) && !Disconnects(InputFor(p, c)) then Delivered(before, c) + BytesOf(InputFor(p, c))
      else Delivered(before, c)
  }

  /** Every poll walks the connections it serves, each once, in some order. */
  ghost predicate WalksClients(polls: seq<Poll>) {
    polls == [] ||
    var before, p := polls[..|polls| - 1], polls[|polls| - 1];
    && WalksClients(before)
    && (forall i, j | 0 <= i < j < |p.order| :: p.order[i] != p.order[j])
    && (forall c :: c in p.order <==> Serves(before, p, c))
  }

  /** Accepting keeps the clients there are and adds those whose entry is true, each under
      the id of its place. */
  lemma {:induction false} AcceptServes(s: ServerState, accepts: seq<bool>, c: ConnectionId)
    ensures var s' := Accept(s, accepts);
      && s'.nextClient == s.nextClient + |accepts|
      && (c in s'.clients <==>
            || c in s.clients
            || (s.nextClient <= c < s.nextClient + |accepts| && accepts[c - s.nextClient]))
    decreases |accepts|
  {
    if accepts == [] {
    } else {
      var clients := if accepts[0] then s.clients[s.nextClient := []] else s.clients;
      AcceptServes(s.(clients := clients, nextClient := s.nextClient + 1), accepts[1..], c);
    }
  }

  /** Over all polls the server serves a connection exactly while it is open: from the poll
      that accepts it to the first that finds it disconnected. */
  lemma {:induction false} ServedWhileOpen(polls: seq<Poll>, c: ConnectionId)
    ensures RunState(polls).nextClient == 1 + Attempts(polls)
    ensures c in RunState(polls).clients <==> IsOpen(polls, c)
    ensures forall p :: c in ClientsServed(RunState(polls), p) <==> Serves(polls, p, c)
  {
    hide Accept, PollOutput, InputFor, Disconnects, RestOf;
    if polls == [] {
    } else {
      var before, p := polls[..|polls| - 1], polls[|polls| - 1];
      ServedWhileOpen(before, c);
      AcceptServes(RunState(before), p.accepts, c);
    }
    forall p ensures c in ClientsServed(RunState(polls), p) <==> Serves(polls, p, c) {
      AcceptServes(RunState(polls), p.accepts, c);
    }
  }

  lemma WalkEnumerates(before: seq<Poll>, p: Poll)
    requires forall i, j | 0 <= i < j < |p.order| :: p.order[i] != p.order[j]
    requires forall c :: c in p.order <==> Serves(before, p, c)
    ensures Enumerates(p.order, ClientsServed(RunState(before), p))
  {
    hide RunState, ClientsServed, Serves;
    forall c ensures c in p.order <==> c in ClientsServed(RunState(before), p) {
      ServedWhileOpen(before, c);
    }
  }

  /** New clients start with an empty buffer under an id not used before. */
  lemma {:induction false} AcceptAddsFreshClients(s: ServerState, accepts: seq<bool>)
    requires forall c | c in s.clients :: c < s.nextClient
    ensures var s' := Accept(s, accepts);
      && s'.nextClient >= s.nextClient
      && (forall c | c in s'.clients :: c < s'.nextClient)
      && (forall c | c in s'.clients ::
            if c in s.clients then s'.clients[c] == s.clients[c] else c >= s.nextClient && s'.clients[c] == [])
      && s.clients.Keys <= s'.clients.Keys
    decreases |accepts|
  {
    if accepts == [] {
    } else {
      var clients := if accepts[0] then s.clients[s.nextClient := []] else s.clients;
      AcceptAddsFreshClients(s.(clients := clients, nextClient := s.nextClient + 1), accepts[1..]);
    }
  }

  /** Client c's share of one poll's output. */
  lemma PollShare(s: ServerState, p: Poll, c: ConnectionId)
    requires Enumerates(p.order, ClientsServed(s, p))
    ensures var clients := ClientsServed(s, p);
      ByClient(PollOutput(s, p), c) == if c in clients then Contribution(p, c, clients[c]) else []
  {
    hide Contribution, Number, ByClient, Accept;
    var s1 := Accept(s, p.accepts);
    var walk := WalkOf(p, s1.clients, p.order);
    if c in s1.clients {
      var i :| 0 <= i < |p.order| && p.order[i] == c;
      assert walk[i] == (c, Contribution(p, c, s1.clients[c]));
      ShareIsContribution(walk, s1.nextSequence, i);
    } else {
      NoShare(walk, s1.nextSequence, c);
    }
  }

  /** What a run keeps for client c. */
  ghost predicate ClientInv(polls: seq<Poll>, c: ConnectionId) {
    && ByClient(AllOutput(polls), c) == RequestsIn(Delivered(polls, c))
    && (c in RunState(polls).clients ==>
          RunState(polls).clients[c] == RestOf(Delivered(polls, c)) && c < RunState(polls).nextClient)
    && (c >= RunState(polls).nextClient ==> Delivered(polls, c) == [])
  }

  /** Serving a client that has sent d so far and sends more. */
  lemma ServeKeepsShare(s: ServerState, p: Poll, c: ConnectionId, d: seq<u8>, out: seq<SequencedRequest>)
    requires Enumerates(p.order, ClientsServed(s, p))
    requires ByClient(out, c) == RequestsIn(d)
    requires c in ClientsServed(s, p) ==> ClientsServed(s, p)[c] == RestOf(d)
    ensures var served := c in ClientsServed(s, p) && !Disconnects(InputFor(p, c));
      var d' := if served then d + BytesOf(InputFor(p, c)) else d;
      && ByClient(out + PollOutput(s, p), c) == RequestsIn(d')
      && (c in PollState(s, p).clients ==> PollState(s, p).clients[c] == RestOf(d'))
  {
    hide RequestsIn, RestOf, ByClient, PollOutput, Accept, BytesOf, InputFor, Disconnects;
    PollShare(s, p, c);
    ByClientAppend(out, PollOutput(s, p), c);
    RequestsAppend(d, BytesOf(InputFor(p, c)));
  }

  lemma ServedBuffer(s: ServerState, p: Poll, c: ConnectionId, d: seq<u8>)
    requires forall e | e in s.clients :: e < s.nextClient
    requires c in s.clients ==> s.clients[c] == RestOf(d)
    requires c >= s.nextClient ==> d == []
    ensures c in ClientsServed(s, p) ==> ClientsServed(s, p)[c] == RestOf(d)
    ensures c in PollState(s, p).clients ==> c < PollState(s, p).nextClient
    ensures c >= PollState(s, p).nextClient ==> d == [] && c !in ClientsServed(s, p)
  {
    hide RequestsIn, RestOf, PollOutput, Accept;
    AcceptAddsFreshClients(s, p.accepts);
    RequestsStep([]);
  }

  lemma ClientStep(polls: seq<Poll>, before: seq<Poll>, p: Poll, c: ConnectionId)
    requires polls != [] && Enumerates(p.order, ClientsServed(RunState(before), p))
    requires before == polls[..|polls| - 1] && p == polls[|polls| - 1]
    requires forall d :: ClientInv(before, d)
    ensures ClientInv(polls, c)
  {
    hide RequestsIn, RestOf, ByClient, PollOutput, PollState, ClientsServed, BytesOf, InputFor, Disconnects, Enumerates,
         Serves, Attempts, IsOpen;
    var s := RunState(before);
    ServedWhileOpen(before, c);
    assert ClientInv(before, c);
    assert forall e | e in s.clients :: ClientInv(before, e);
    ServedBuffer(s, p, c, Delivered(before, c));
    ServeKeepsShare(s, p, c, Delivered(before, c), AllOutput(before));
  }

  lemma StartsEmpty(c: ConnectionId)
    ensures ClientInv([], c)
  {
    hide RequestsIn, RestOf;
    RequestsStep([]);
  }

  /** Over all polls and any walking orders: the sequence numbers are 1, 2, 3, ... in
      output order, and the subsequence of each client is exactly what its bytes decode
      to, in order, whether or not it has disconnected since. */
  lemma {:induction false} OutputIsFaithfulInterleaving(polls: seq<Poll>)
    requires WalksClients(polls)
    ensures Consecutive(AllOutput(polls), 1)
    ensures RunState(polls).nextSequence == 1 + |AllOutput(polls)|
    ensures forall c :: ClientInv(polls, c)
  {
    hide RequestsIn, RestOf, PollOutput, PollState, Delivered, ClientsServed, Enumerates, Serves;
    if polls == [] {
      forall c ensures ClientInv(polls, c) { StartsEmpty(c); }
    } else {
      var before, p := polls[..|polls| - 1], polls[|polls| - 1];
      OutputIsFaithfulInterleaving(before);
      WalkEnumerates(before, p);
      forall c ensures ClientInv(polls, c) { ClientStep(polls, before, p, c); }
      PollNumbers(RunState(before), p, AllOutput(before));
    }
  }

  lemma PollNumbers(s: ServerState, p: Poll, out: seq<SequencedRequest>)
    requires Consecutive(out, 1) && s.nextSequence == 1 + |out|
    ensures Consecutive(out + PollOutput(s, p), 1)
    ensures PollState(s, p).nextSequence == 1 + |out + PollOutput(s, p)|
  {
    hide Accept, Number, WalkOf, Survivors;
    AcceptKeepsSequence(s, p.accepts);
    NumbersAreConsecutive(WalkOf(p, ClientsServed(s, p), p.order), s.nextSequence);
  }

  lemma {:induction false} AcceptKeepsSequence(s: ServerState, accepts: seq<bool>)
    ensures Accept(s, accepts).nextSequence == s.nextSequence
    decreases |accepts|
  {
    if accepts == [] {
    } else {
      var clients := if accepts[0] then s.clients[s.nextClient := []] else s.clients;
      AcceptKeepsSequence(s.(clients := clients, nextClient := s.nextClient + 1), accepts[1..]);
    }
  }
}
