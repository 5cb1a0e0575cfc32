/** The single-producer single-consumer ring of `common/src/lf_queue.rs`.

    `Step` is one atomic action of one of the two threads: a load or store of an
    index, or an access to a slot. A schedule is any sequence of actions; an action
    its thread is not ready for does nothing, so every interleaving is a schedule.
    The indices are 64-bit words that wrap. */
module LfQueue {
  import opened Types
  import opened Arithmetic

  /** Where the producer is inside `push`. */
  datatype Producer<T> =
    | Idle
    | GotTail(item: T, tail: nat)
    | Reserved(item: T, tail: nat)
    | Written(item: T, tail: nat)

  /** Where the consumer is inside `pop`. */
  datatype Consumer<T> =
    | Waiting
    | GotHead(head: nat)
    | Claimed(head: nat)
    | Fetched(head: nat, item: T)

  datatype Ring<T> = Ring(
    buffer: seq<Option<T>>,
    tail: nat,
    head: nat,
    producer: Producer<T>,
    consumer: Consumer<T>)

  datatype Action<T> =
    | LoadOwnTail(item: T)
    | LoadOtherHead
    | WriteSlot
    | PublishTail
    | LoadOwnHead
    | LoadOtherTail
    | ReadSlot
    | PublishHead

  /** What an action lets the caller of `push` or `pop` observe. */
  datatype Event<T> =
    | Silent
    | Pushed(item: T)
    | Refused(item: T)
    | Popped(item: T)
    | FoundEmpty

  // ---------------------------------------------------------------- the code

  function WrappingSub(a: nat, b: nat): nat {
    (a - b) % WORD64
  }

  function WrappingAdd(a: nat, b: nat): nat {
    (a + b) % WORD64
  }

  /** `index & MASK`. */
  function Slot(n: nat, index: nat): nat
    requires n > 0
  {
    BitAnd(index, n - 1)
  }

  function Empty<T>(n: nat): Ring<T> {
    Ring(seq(n, _ => None), 0, 0, Idle, Waiting)
  }

  function Step<T>(n: nat, s: Ring<T>, a: Action<T>): (Ring<T>, Event<T>)
    requires n > 0
  {
    match a
    case LoadOwnTail(item) =>
      if s.producer.Idle? then (s.(producer := GotTail(item, s.tail)), Silent) else (s, Silent)
    case LoadOtherHead =>
      if !s.producer.GotTail? then (s, Silent)
      else if WrappingSub(s.producer.tail, s.head) >= n then
        (s.(producer := Idle), Refused(s.producer.item))
      else
        (s.(producer := Reserved(s.producer.item, s.producer.tail)), Silent)
    case WriteSlot =>
      if !s.producer.Reserved? then (s, Silent)
      else
        var i := Slot(n, s.producer.tail);
        var written := Written(s.producer.item, s.producer.tail);
        if i < |s.buffer| then
          (s.(buffer := s.buffer[i := Some(s.producer.item)], producer := written), Silent)
        else (s.(producer := written), Silent)
    case PublishTail =>
      if !s.producer.Written? then (s, Silent)
      else (s.(tail := WrappingAdd(s.producer.tail, 1), producer := Idle), Pushed(s.producer.item))
    case LoadOwnHead =>
      if s.consumer.Waiting? then (s.(consumer := GotHead(s.head)), Silent) else (s, Silent)
    case LoadOtherTail =>
      if !s.consumer.GotHead? then (s, Silent)
      else if s.consumer.head == s.tail then (s.(consumer := Waiting), FoundEmpty)
      else (s.(consumer := Claimed(s.consumer.head)), Silent)
    case ReadSlot =>
      if !s.consumer.Claimed? then (s, Silent)
      else
        var i := Slot(n, s.consumer.head);
        if i < |s.buffer| && s.buffer[i].Some? then
          (s.(consumer := Fetched(s.consumer.head, s.buffer[i].value)), Silent)
        else (s, Silent)
    case PublishHead =>
      if !s.consumer.Fetched? then (s, Silent)
      else (s.(head := WrappingAdd(s.consumer.head, 1), consumer := Waiting), Popped(s.consumer.item))
  }

  function Run<T>(n: nat, s: Ring<T>, schedule: seq<Action<T>>): (r: (Ring<T>, seq<Event<T>>))
    requires n > 0
    ensures |r.1| == |schedule|
    decreases |schedule|
  {
    if schedule == [] then (s, [])
    else
      var (s1, e) := Step(n, s, schedule[0]);
      var (s2, es) := Run(n, s1, schedule[1..]);
      (s2, [e] + es)
  }

  // ---------------------------------------------------------------- the specification

  function PushedItems<T>(es: seq<Event<T>>): seq<T> {
    if es == [] then []
    else (if es[0].Pushed? then [es[0].item] else []) + PushedItems(es[1..])
  }

  function PoppedItems<T>(es: seq<Event<T>>): seq<T> {
    if es == [] then []
    else (if es[0].Popped? then [es[0].item] else []) + PoppedItems(es[1..])
  }

  /** An atomic FIFO queue of capacity n that holds q can show e. */
  predicate FifoAllows<T(==)>(n: nat, q: seq<T>, e: Event<T>) {
    match e
    case Silent => true
    case Pushed(_) => |q| < n
    case Refused(_) => |q| == n
    case Popped(x) => q != [] && q[0] == x
    case FoundEmpty => q == []
  }

  /** What the queue holds afterwards. */
  function FifoAfter<T>(q: seq<T>, e: Event<T>): seq<T> {
    match e
    case Pushed(x) => q + [x]
    case Popped(_) => if q == [] then q else q[1..]
    case _ => q
  }

  /** The events are a history of an atomic bounded FIFO that starts with contents q. */
  predicate FifoHistory<T(==)>(n: nat, q: seq<T>, es: seq<Event<T>>)
    decreases |es|
  {
    es == [] || (FifoAllows(n, q, es[0]) && FifoHistory(n, FifoAfter(q, es[0]), es[1..]))
  }

  /** The capacities `LFQueue::new` accepts. */
  ghost predicate Capacity(n: nat, k: nat) {
    k < 64 && n == Pow2(k)
  }

  /** The slot of the i-th item ever accepted. */
  function Cell(n: nat, i: nat): nat
    requires n > 0
  {
    i % n
  }

  ghost predicate Stored<T>(n: nat, buffer: seq<Option<T>>, h: nat, q: seq<T>)
    requires n > 0 && |buffer| == n
  {
    forall j | h <= j < h + |q| :: buffer[Cell(n, j)] == Some(q[j - h])
  }

  /** The ring holds exactly q, the first of which is the h-th item ever accepted.
      h is unbounded; the stored indices are its 64-bit residues. */
  ghost predicate Holds<T>(n: nat, s: Ring<T>, h: nat, q: seq<T>)
    requires n > 0
  {
    var t := h + |q|;
    && |s.buffer| == n && |q| <= n
    && s.head == h % WORD64 && s.tail == t % WORD64
    && Stored(n, s.buffer, h, q)
    && (!s.producer.Idle? ==> s.producer.tail == s.tail)
    && (s.producer.Reserved? || s.producer.Written? ==> |q| < n)
    && (s.producer.Written? ==> s.buffer[Cell(n, t)] == Some(s.producer.item))
    && (!s.consumer.Waiting? ==> s.consumer.head == s.head)
    && (s.consumer.Claimed? || s.consumer.Fetched? ==> |q| > 0)
    && (s.consumer.Fetched? ==> s.consumer.item == q[0])
  }

  // ---------------------------------------------------------------- wrap-around

  lemma CapacityDividesWord(n: nat, k: nat)
    requires Capacity(n, k)
    ensures n > 0 && n < WORD64
    ensures exists c: nat :: c > 1 && n * c == WORD64
  {
    Pow2Add(k, 64 - k);
    Pow2Is64();
    assert Pow2(64 - k) == 2 * Pow2(63 - k);
    MulLe(2, Pow2(64 - k), n);
    assert n * Pow2(64 - k) == WORD64;
  }

  lemma Pow2Is64()
    ensures Pow2(64) == WORD64
  {
    assert Pow2(4) == 0x10;
    hide Pow2;
    Pow2Add(4, 4);
    Pow2Add(8, 8);
    Pow2Add(16, 16);
    Pow2Add(32, 32);
  }

  /** Masking the wrapped index finds the slot of the unbounded one. */
  lemma SlotOfWrapped(n: nat, k: nat, x: nat)
    requires Capacity(n, k)
    ensures Slot(n, x % WORD64) == Cell(n, x) < n
  {
    CapacityDividesWord(n, k);
    var c: nat :| c > 1 && n * c == WORD64;
    MaskIsMod(x % WORD64, k);
    ModOfMultiple(x, n, c);
  }

  /** `wrapping_sub` of wrapped counters is their true distance. */
  lemma WrappedDistance(h: nat, d: nat)
    requires d < WORD64
    ensures WrappingSub((h + d) % WORD64, h % WORD64) == d
    ensures h % WORD64 == (h + d) % WORD64 <==> d == 0
  {
  }

  lemma WrappedSuccessor(x: nat)
    ensures WrappingAdd(x % WORD64, 1) == (x + 1) % WORD64
  {
  }

  // ---------------------------------------------------------------- one step

  /** A write beyond the last stored item overwrites none of them. */
  lemma StoredAfterWrite<T>(n: nat, buffer: seq<Option<T>>, h: nat, q: seq<T>, x: T)
    requires |q| < n == |buffer| && Stored(n, buffer, h, q)
    ensures Stored(n, buffer[Cell(n, h + |q|) := Some(x)], h, q)
  {
    forall j | h <= j < h + |q| ensures Cell(n, j) != Cell(n, h + |q|) {
      ModDistinct(j, h + |q|, n);
    }
  }

  lemma StoredTail<T>(n: nat, buffer: seq<Option<T>>, h: nat, q: seq<T>)
    requires 0 < |q| <= n == |buffer| && Stored(n, buffer, h, q)
    ensures Stored(n, buffer, h + 1, q[1..])
    ensures buffer[Cell(n, h)] == Some(q[0])
  {
  }

  lemma ProducerStep<T>(n: nat, k: nat, s: Ring<T>, h: nat, q: seq<T>, a: Action<T>)
    requires Capacity(n, k) && Holds(n, s, h, q)
    requires a.LoadOwnTail? || a.LoadOtherHead? || a.WriteSlot? || a.PublishTail?
    ensures var (s', e) := Step(n, s, a);
      && FifoAllows(n, q, e) && !e.Popped?
      && Holds(n, s', h, FifoAfter(q, e))
  {
    var t := h + |q|;
    CapacityDividesWord(n, k);
    match a {
      case LoadOwnTail(_) =>
      case LoadOtherHead => WrappedDistance(h, |q|);
      case WriteSlot =>
        if s.producer.Reserved? {
          SlotOfWrapped(n, k, t);
          StoredAfterWrite(n, s.buffer, h, q, s.producer.item);
        }
      case PublishTail => WrappedSuccessor(t);
    }
  }

  lemma ConsumerStep<T>(n: nat, k: nat, s: Ring<T>, h: nat, q: seq<T>, a: Action<T>)
    requires Capacity(n, k) && Holds(n, s, h, q)
    requires a.LoadOwnHead? || a.LoadOtherTail? || a.ReadSlot? || a.PublishHead?
    ensures var (s', e) := Step(n, s, a);
      && FifoAllows(n, q, e) && !e.Pushed?
      && Holds(n, s', h + (if e.Popped? then 1 else 0), FifoAfter(q, e))
  {
    CapacityDividesWord(n, k);
    if q != [] {
      StoredTail(n, s.buffer, h, q);
    }
    match a {
      case LoadOwnHead =>
      case LoadOtherTail => WrappedDistance(h, |q|);
      case ReadSlot => SlotOfWrapped(n, k, h);
      case PublishHead => WrappedSuccessor(h);
    }
  }

  /** Every atomic action is one event of the atomic bounded FIFO. */
  lemma StepSimulatesFifo<T>(n: nat, k: nat, s: Ring<T>, h: nat, q: seq<T>, a: Action<T>)
    requires Capacity(n, k) && Holds(n, s, h, q)
    ensures var (s', e) := Step(n, s, a);
      && FifoAllows(n, q, e)
      && Holds(n, s', h + (if e.Popped? then 1 else 0), FifoAfter(q, e))
  {
    if a.LoadOwnTail? || a.LoadOtherHead? || a.WriteSlot? || a.PublishTail? {
      ProducerStep(n, k, s, h, q, a);
    } else {
      ConsumerStep(n, k, s, h, q, a);
    }
  }

  // ---------------------------------------------------------------- whole runs

  lemma {:induction false} RunSimulatesFifo<T>(n: nat, k: nat, s: Ring<T>, h: nat, q: seq<T>, schedule: seq<Action<T>>)
    requires Capacity(n, k) && Holds(n, s, h, q)
    ensures var (s', es) := Run(n, s, schedule);
      && FifoHistory(n, q, es)
      && PoppedItems(es) <= q + PushedItems(es)
      && Holds(n, s', h + |PoppedItems(es)|, (q + PushedItems(es))[|PoppedItems(es)|..])
    decreases |schedule|
  {
    if schedule == [] {
      assert q + [] == q;
    } else {
      hide Holds, Step;
      var (s1, e) := Step(n, s, schedule[0]);
      var (s2, es) := Run(n, s1, schedule[1..]);
      StepSimulatesFifo(n, k, s, h, q, schedule[0]);
      RunSimulatesFifo(n, k, s1, h + (if e.Popped? then 1 else 0), FifoAfter(q, e), schedule[1..]);
      assert ([e] + es)[1..] == es;
      HistoryHeadTail(n, q, e, es);
    }
  }

  /** Bookkeeping for one more event at the front of a history. */
  lemma HistoryHeadTail<T>(n: nat, q: seq<T>, e: Event<T>, es: seq<Event<T>>)
    requires FifoAllows(n, q, e)
    requires PoppedItems(es) <= FifoAfter(q, e) + PushedItems(es)
    ensures var all := [e] + es;
      && PoppedItems(all) <= q + PushedItems(all)
      && |PoppedItems(all)| == |PoppedItems(es)| + (if e.Popped? then 1 else 0)
      && (q + PushedItems(all))[|PoppedItems(all)|..] == (FifoAfter(q, e) + PushedItems(es))[|PoppedItems(es)|..]
  {
    var all, q1 := [e] + es, FifoAfter(q, e);
    assert all[1..] == es;
    match e {
      case Pushed(x) => assert q + ([x] + PushedItems(es)) == q1 + PushedItems(es);
      case Popped(x) => assert q + PushedItems(es) == [x] + (q1 + PushedItems(es));
      case _ => assert [] + PushedItems(es) == PushedItems(es);
    }
  }

  lemma EmptyHolds<T>(n: nat)
    requires n > 0
    ensures Holds(n, Empty<T>(n), 0, [])
  {
  }

  /** Under every interleaving: what the callers see is a history of an atomic FIFO of
      capacity n, so a refused push met exactly n items and a failed pop an empty queue;
      and the popped items are a prefix of the pushed ones. */
  lemma InterleavingsAreFifo<T>(n: nat, k: nat, schedule: seq<Action<T>>)
    requires Capacity(n, k)
    ensures var es := Run(n, Empty(n), schedule).1;
      && FifoHistory(n, [], es)
      && PoppedItems(es) <= PushedItems(es)
      && |PushedItems(es)| - |PoppedItems(es)| <= n
  {
    EmptyHolds<T>(n);
    RunSimulatesFifo(n, k, Empty(n), 0, [], schedule);
    var es := Run(n, Empty<T>(n), schedule).1;
    assert [] + PushedItems(es) == PushedItems(es);
  }

  /** Slot ownership, across wrap-around and with a stale view of the other index:
      a write about to happen targets neither the slot of an item not yet consumed nor
      the slot being read, and a read about to happen finds the oldest item. */
  lemma SlotsAreOwned<T>(n: nat, k: nat, schedule: seq<Action<T>>)
    requires Capacity(n, k)
    ensures var (s, es) := Run(n, Empty(n), schedule);
      var pushed, popped := PushedItems(es), PoppedItems(es);
      && |s.buffer| == n && popped <= pushed
      && (forall i | |popped| <= i < |pushed| :: s.buffer[Cell(n, i)] == Some(pushed[i]))
      && (s.producer.Reserved? ==>
            && Slot(n, s.producer.tail) < n
            && (forall i | |popped| <= i < |pushed| :: Cell(n, i) != Slot(n, s.producer.tail))
            && (s.consumer.Claimed? || s.consumer.Fetched? ==>
                  Slot(n, s.producer.tail) != Slot(n, s.consumer.head)))
      && (s.consumer.Claimed? || s.consumer.Fetched? ==>
            && |popped| < |pushed| && Slot(n, s.consumer.head) < n
            && s.buffer[Slot(n, s.consumer.head)] == Some(pushed[|popped|]))
  {
    hide Run, Step;
    EmptyHolds<T>(n);
    RunSimulatesFifo(n, k, Empty(n), 0, [], schedule);
    var (s, es) := Run(n, Empty(n), schedule);
    var pushed, popped := PushedItems(es), PoppedItems(es);
    assert [] + pushed == pushed;
    HeldSlots(n, k, s, |popped|, pushed[|popped|..]);
  }

  lemma HeldSlots<T>(n: nat, k: nat, s: Ring<T>, h: nat, q: seq<T>)
    requires Capacity(n, k) && Holds(n, s, h, q)
    ensures Stored(n, s.buffer, h, q)
    ensures s.producer.Reserved? ==>
      && Slot(n, s.producer.tail) < n
      && (forall i | h <= i < h + |q| :: Cell(n, i) != Slot(n, s.producer.tail))
    ensures s.consumer.Claimed? || s.consumer.Fetched? ==>
      && q != [] && Slot(n, s.consumer.head) == Cell(n, h) < n
  {
    SlotOfWrapped(n, k, h);
    SlotOfWrapped(n, k, h + |q|);
    hide Slot;
    if s.producer.Reserved? {
      forall i | h <= i < h + |q| ensures Cell(n, i) != Cell(n, h + |q|) {
        ModDistinct(i, h + |q|, n);
      }
    }
  }

  // ---------------------------------------------------------------- one thread at a time

  function SoloPush<T>(n: nat, s: Ring<T>, item: T): Ring<T>
    requires n > 0
  {
    Step(n, Step(n, Step(n, Step(n, s, LoadOwnTail(item)).0, LoadOtherHead).0, WriteSlot).0, PublishTail).0
  }

  function SoloPop<T>(n: nat, s: Ring<T>): Ring<T>
    requires n > 0
  {
    Step(n, Step(n, Step(n, Step(n, s, LoadOwnHead).0, LoadOtherTail).0, ReadSlot).0, PublishHead).0
  }

  /** A push that is not interrupted. */
  lemma SoloPushHolds<T>(n: nat, k: nat, s: Ring<T>, h: nat, q: seq<T>, item: T)
    requires Capacity(n, k) && Holds(n, s, h, q) && s.producer.Idle?
    ensures WrappingSub(s.tail, s.head) == |q| && Slot(n, s.tail) < n
    ensures |q| >= n ==> SoloPush(n, s, item) == s
    ensures |q| < n ==>
      && SoloPush(n, s, item) == s.(buffer := s.buffer[Slot(n, s.tail) := Some(item)], tail := WrappingAdd(s.tail, 1))
      && Holds(n, SoloPush(n, s, item), h, q + [item])
  {
    var s1 := Step(n, s, LoadOwnTail(item)).0;
    var s2 := Step(n, s1, LoadOtherHead).0;
    var s3 := Step(n, s2, WriteSlot).0;
    CapacityDividesWord(n, k);
    WrappedDistance(h, |q|);
    SlotOfWrapped(n, k, h + |q|);
    ProducerStep(n, k, s, h, q, LoadOwnTail(item));
    ProducerStep(n, k, s1, h, q, LoadOtherHead);
    ProducerStep(n, k, s2, h, q, WriteSlot);
    ProducerStep(n, k, s3, h, q, PublishTail);
    hide Slot, Stored, Cell;
  }

  /** A pop that is not interrupted. */
  lemma SoloPopHolds<T>(n: nat, k: nat, s: Ring<T>, h: nat, q: seq<T>)
    requires Capacity(n, k) && Holds(n, s, h, q) && s.consumer.Waiting?
    ensures (s.head == s.tail <==> q == []) && Slot(n, s.head) < n
    ensures q == [] ==> SoloPop(n, s) == s
    ensures q != [] ==>
      && s.buffer[Slot(n, s.head)] == Some(q[0])
      && SoloPop(n, s) == s.(head := WrappingAdd(s.head, 1))
      && Holds(n, SoloPop(n, s), h + 1, q[1..])
  {
    var s1 := Step(n, s, LoadOwnHead).0;
    var s2 := Step(n, s1, LoadOtherTail).0;
    var s3 := Step(n, s2, ReadSlot).0;
    CapacityDividesWord(n, k);
    WrappedDistance(h, |q|);
    SlotOfWrapped(n, k, h);
    if q != [] { StoredTail(n, s.buffer, h, q); }
    ConsumerStep(n, k, s, h, q, LoadOwnHead);
    ConsumerStep(n, k, s1, h, q, LoadOtherTail);
    ConsumerStep(n, k, s2, h, q, ReadSlot);
    ConsumerStep(n, k, s3, h, q, PublishHead);
    hide Slot, Stored, Cell;
  }

  /** The queue object, used by one thread at a time (as in `Drop`). */
  class LFQueue<T> {
    const n: nat
    ghost const k: nat
    const buffer: array<Option<T>>
    var tail: nat
    var head: nat
    ghost var popped: nat
    ghost var contents: seq<T>

    ghost function State(): Ring<T>
      reads this, buffer
    {
      Ring(buffer[..], tail, head, Idle, Waiting)
    }

    ghost predicate Valid()
      reads this, buffer
    {
      Capacity(n, k) && Holds(n, State(), popped, contents)
    }

    constructor (n: nat, ghost k: nat)
      requires Capacity(n, k)
      ensures Valid() && this.n == n && fresh(buffer)
      ensures contents == [] && State() == Empty(n)
    {
      this.n, this.k := n, k;
      buffer := new Option<T>[n](_ => None);
      tail, head, popped, contents := 0, 0, 0, [];
      new;
      assert buffer[..] == seq(n, _ => None);
      EmptyHolds<T>(n);
    }

    method Push(item: T) returns (ok: bool)
      requires Valid()
      modifies this, buffer
      ensures Valid()
      ensures State() == SoloPush(n, old(State()), item)
      ensures ok <==> |old(contents)| < n
      ensures contents == if ok then old(contents) + [item] else old(contents)
    {
      hide Holds, SoloPush, Slot, WrappingAdd, WrappingSub;
      BufferLength();
      SoloPushHolds(n, k, State(), popped, contents, item);
      var t := tail;
      var h := head;
      if WrappingSub(t, h) >= n {
        return false;
      }
      buffer[Slot(n, t)] := Some(item);
      tail := WrappingAdd(t, 1);
      contents := contents + [item];
      return true;
    }

    lemma BufferLength()
      requires Valid()
      ensures buffer.Length == n > 0
    {
    }

    method Pop() returns (item: Option<T>)
      requires Valid()
      modifies this, buffer
      ensures Valid() && buffer[..] == old(buffer[..])
      ensures State() == SoloPop(n, old(State()))
      ensures old(contents) == [] ==> item == None && contents == []
      ensures old(contents) != [] ==> item == Some(old(contents)[0]) && contents == old(contents)[1..]
    {
      hide Holds, SoloPop, Slot, WrappingAdd;
      BufferLength();
      SoloPopHolds(n, k, State(), popped, contents);
      var h := head;
      var t := tail;
      if h == t {
        return None;
      }
      item := buffer[Slot(n, h)];
      head := WrappingAdd(h, 1);
      popped, contents := popped + 1, contents[1..];
    }

    method Len() returns (len: nat)
      requires Valid()
      ensures len == |contents|
    {
      CapacityDividesWord(n, k);
      WrappedDistance(popped, |contents|);
      len := WrappingSub(tail, head);
    }

    /** `Drop`: pops until nothing is left, releasing each remaining item once, in order. */
    method Drop() returns (released: seq<T>)
      requires Valid()
      modifies this, buffer
      ensures Valid() && contents == []
      ensures released == old(contents)
    {
      released := [];
      var item := Pop();
      while item.Some?
        invariant Valid()
        invariant item.Some? ==> old(contents) == released + [item.value] + contents
        invariant item.None? ==> old(contents) == released && contents == []
        decreases |contents|, item.Some?
      {
        released := released + [item.value];
        item := Pop();
      }
    }
  }
}
