/** Where each field of a message lies on the wire: packed, in the order of the source's
    structs, least significant byte first, negative numbers in two's complement. */
module WireFormat {
  import opened Types
  import opened Protocol

  /** The word of w bytes that starts at an offset, least significant byte first. */
  function WordAt(b: seq<u8>, at: nat, w: nat): nat
    requires at + w <= |b|
    decreases w
  {
    if w == 0 then 0 else b[at] + 256 * WordAt(b, at + 1, w - 1)
  }

  function TwosComplement(x: int, modulus: nat): int {
    if x >= 0 then x else x + modulus
  }

  lemma {:induction false} WordIsBytes(b: seq<u8>, at: nat, w: nat)
    requires at + w <= |b|
    ensures WordAt(b, at, w) == FromBytes(b[at..at + w])
    decreases w
  {
    if w == 0 {
    } else {
      WordIsBytes(b, at + 1, w - 1);
      assert b[at..at + w][1..] == b[at + 1..at + 1 + (w - 1)];
    }
  }

  /** Columns follow each other without gaps. */
  lemma {:induction false} SizeOfPrefix(layout: Layout, k: nat)
    requires k < |layout|
    ensures Size(layout[..k + 1]) == Size(layout[..k]) + layout[k]
    ensures Size(layout[..k + 1]) <= Size(layout)
    decreases |layout|
  {
    assert layout[..k + 1][1..] == layout[1..][..k];
    if k == 0 {
      assert layout[..0] == [];
    } else {
      assert layout[..k][1..] == layout[1..][..k - 1];
      SizeOfPrefix(layout[1..], k - 1);
    }
  }

  lemma {:induction false} FieldBytes(layout: Layout, values: seq<nat>, k: nat)
    requires |layout| == |values| && k < |layout|
    ensures var at := Size(layout[..k]);
      && at + layout[k] <= Size(layout)
      && Pack(layout, values)[at..at + layout[k]] == ToBytes(values[k], layout[k])
    decreases |layout|
  {
    hide ToBytes;
    SizeOfPrefix(layout, k);
    var b, w := Pack(layout, values), layout[0];
    if k == 0 {
      assert layout[..0] == [];
    } else {
      FieldBytes(layout[1..], values[1..], k - 1);
      assert layout[..k][1..] == layout[1..][..k - 1];
      var at := Size(layout[1..][..k - 1]);
      var rest := Pack(layout[1..], values[1..]);
      assert b == ToBytes(values[0], w) + rest;
      assert b[w + at..w + at + layout[k]] == rest[at..at + layout[k]];
    }
  }

  /** Field k lies behind the fields before it. */
  lemma FieldAt(layout: Layout, values: seq<nat>, k: nat, at: nat)
    requires Columns(layout, values) && WordColumns(layout) && k < |layout| && at == Size(layout[..k])
    ensures at + layout[k] <= Size(layout) && WordAt(Pack(layout, values), at, layout[k]) == values[k]
    ensures Size(layout[..k + 1]) == at + layout[k]
  {
    hide Pack, Size, ToBytes, FromBytes, Pow256, WordAt;
    FieldBytes(layout, values, k);
    SizeOfPrefix(layout, k);
    ColumnsFit(layout, values);
    WordRoundTrip(values[k], layout[k]);
    WordIsBytes(Pack(layout, values), at, layout[k]);
  }

  lemma RequestOnWire(r: ClientRequest)
    ensures var b := RequestBytes(r);
      && |b| == 30
      && WordAt(b, 0, 1) == r.msgType && WordAt(b, 1, 4) == r.clientId && WordAt(b, 5, 4) == r.tickerId
      && WordAt(b, 9, 8) == r.orderId && WordAt(b, 17, 1) == TwosComplement(r.side, 0x100)
      && WordAt(b, 18, 8) == TwosComplement(r.price, WORD64) && WordAt(b, 26, 4) == r.qty
  {
    hide Columns, WordColumns, Pack, Size, WordAt;
    var l, v := REQUEST_LAYOUT, RequestFields(r);
    LayoutSizes();
    NoFields(l);
    FieldAt(l, v, 0, 0);
    FieldAt(l, v, 1, 1);
    FieldAt(l, v, 2, 5);
    FieldAt(l, v, 3, 9);
    FieldAt(l, v, 4, 17);
    FieldAt(l, v, 5, 18);
    FieldAt(l, v, 6, 26);
  }

  lemma ResponseOnWire(r: ClientResponse)
    ensures var b := ResponseBytes(r);
      && |b| == 42
      && WordAt(b, 0, 1) == r.msgType && WordAt(b, 1, 4) == r.clientId && WordAt(b, 5, 4) == r.tickerId
      && WordAt(b, 9, 8) == r.clientOrderId && WordAt(b, 17, 8) == r.marketOrderId
      && WordAt(b, 25, 1) == TwosComplement(r.side, 0x100) && WordAt(b, 26, 8) == TwosComplement(r.price, WORD64)
      && WordAt(b, 34, 4) == r.execQty && WordAt(b, 38, 4) == r.leavesQty
  {
    hide Columns, WordColumns, Pack, Size, WordAt;
    var l, v := RESPONSE_LAYOUT, ResponseFields(r);
    LayoutSizes();
    NoFields(l);
    FieldAt(l, v, 0, 0);
    FieldAt(l, v, 1, 1);
    FieldAt(l, v, 2, 5);
    FieldAt(l, v, 3, 9);
    FieldAt(l, v, 4, 17);
    FieldAt(l, v, 5, 25);
    FieldAt(l, v, 6, 26);
    FieldAt(l, v, 7, 34);
    FieldAt(l, v, 8, 38);
  }

  lemma UpdateOnWire(u: MarketUpdate)
    ensures var b := UpdateBytes(u);
      && |b| == 34
      && WordAt(b, 0, 1) == u.msgType && WordAt(b, 1, 4) == u.tickerId && WordAt(b, 5, 8) == u.orderId
      && WordAt(b, 13, 1) == TwosComplement(u.side, 0x100) && WordAt(b, 14, 8) == TwosComplement(u.price, WORD64)
      && WordAt(b, 22, 4) == u.qty && WordAt(b, 26, 8) == u.priority
  {
    hide Columns, WordColumns, Pack, Size, WordAt;
    var l, v := UPDATE_LAYOUT, UpdateFields(u);
    LayoutSizes();
    NoFields(l);
    FieldAt(l, v, 0, 0);
    FieldAt(l, v, 1, 1);
    FieldAt(l, v, 2, 5);
    FieldAt(l, v, 3, 13);
    FieldAt(l, v, 4, 14);
    FieldAt(l, v, 5, 22);
    FieldAt(l, v, 6, 26);
  }

  lemma NoFields(layout: Layout)
    ensures Size(layout[..0]) == 0
  {
  }
}
