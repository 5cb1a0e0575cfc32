/** The logger of `common/src/logging.rs`: an owner thread that pushes entries and is
    eventually dropped, and a writer thread that pops them and writes them out.

    Both threads use the ring of `LfQueue` one atomic action at a time. The owner is
    the only producer; dropping it needs exclusive access, so it can only start when
    no push is under way. */
module Logging {
  import opened Arithmetic
  import opened LfQueue

  const QUEUE_CAPACITY: nat := 4096

  datatype Owner = Live | StopSignalled | Joined

  /** Where the writer is in `writer_loop`. `last` marks the drain after the main loop. */
  datatype Writer<T> =
    | CheckRunning
    | Popping(last: bool)
    | Writing(last: bool, entry: T)
    | Finished

  datatype Logger<T> = Logger(
    ring: Ring<T>,
    running: bool,
    owner: Owner,
    writer: Writer<T>,
    output: seq<T>)

  datatype Action<T> =
    | Log(entry: T)
    | OwnerStep
    | SignalStop
    | Join
    | WriterStep

  function New<T>(): Logger<T> {
    Logger(Empty(QUEUE_CAPACITY), true, Live, CheckRunning, [])
  }

  /** The next ring action of a push under way. */
  function NextPush<T>(p: Producer<T>): LfQueue.Action<T> {
    if p.GotTail? then LoadOtherHead else if p.Reserved? then WriteSlot else PublishTail
  }

  /** The next ring action of a pop. */
  function NextPop<T>(c: Consumer<T>): LfQueue.Action<T> {
    match c
    case Waiting => LoadOwnHead
    case GotHead(_) => LoadOtherTail
    case Claimed(_) => ReadSlot
    case Fetched(_, _) => PublishHead
  }

  /** The writer after its pop showed e. */
  function AfterPop<T>(last: bool, e: Event<T>): Writer<T> {
    match e
    case Popped(x) => Writing(last, x)
    case FoundEmpty => if last then Finished else CheckRunning
    case _ => Popping(last)
  }

  function Step<T>(s: Logger<T>, a: Action<T>): (Logger<T>, Event<T>) {
    match a
    case Log(entry) =>
      if s.owner.Live? then
        var (r, e) := LfQueue.Step(QUEUE_CAPACITY, s.ring, LoadOwnTail(entry));
        (s.(ring := r), e)
      else (s, Silent)
    case OwnerStep =>
      if s.owner.Live? && !s.ring.producer.Idle? then
        var (r, e) := LfQueue.Step(QUEUE_CAPACITY, s.ring, NextPush(s.ring.producer));
        (s.(ring := r), e)
      else (s, Silent)
    case SignalStop =>
      if s.owner.Live? && s.ring.producer.Idle? then
        (s.(running := false, owner := StopSignalled), Silent)
      else (s, Silent)
    case Join =>
      if s.owner.StopSignalled? && s.writer.Finished? then (s.(owner := Joined), Silent)
      else (s, Silent)
    case WriterStep =>
      match s.writer
      case CheckRunning => (s.(writer := Popping(!s.running)), Silent)
      case Popping(last) =>
        var (r, e) := LfQueue.Step(QUEUE_CAPACITY, s.ring, NextPop(s.ring.consumer));
        (s.(ring := r, writer := AfterPop(last, e)), e)
      case Writing(last, x) => (s.(output := s.output + [x], writer := Popping(last)), Silent)
      case Finished => (s, Silent)
  }

  function Run<T>(s: Logger<T>, schedule: seq<Action<T>>): (Logger<T>, seq<Event<T>>)
    decreases |schedule|
  {
    if schedule == [] then (s, [])
    else
      var (s1, e) := Step(s, schedule[0]);
      var (s2, es) := Run(s1, schedule[1..]);
      (s2, [e] + es)
  }

  /** Entries popped but not yet written. */
  function InHand<T>(w: Writer<T>): seq<T> {
    if w.Writing? then [w.entry] else []
  }

  /** The ring holds q and everything accepted so far is written, in hand or in q. */
  ghost predicate Inv<T>(s: Logger<T>, h: nat, q: seq<T>, accepted: seq<T>) {
    && Holds(QUEUE_CAPACITY, s.ring, h, q)
    && accepted == s.output + InHand(s.writer) + q
    && (s.running <==> s.owner.Live?)
    && (!s.running ==> s.ring.producer.Idle?)
    && (s.writer.Popping? || s.writer.Writing? ==> (s.writer.last ==> !s.running))
    && (!s.writer.Popping? ==> s.ring.consumer.Waiting?)
    && (s.writer.Finished? ==> !s.running && q == [])
    && (s.owner.Joined? ==> s.writer.Finished?)
  }

  lemma QueueCapacity()
    ensures Capacity(QUEUE_CAPACITY, 12)
  {
    assert Pow2(6) == 64;
    Pow2Add(6, 6);
  }

  /** What an event adds to the accepted entries. */
  function Accepted<T>(e: Event<T>): seq<T> {
    if e.Pushed? then [e.item] else []
  }

  lemma StepKeepsInv<T>(s: Logger<T>, h: nat, q: seq<T>, accepted: seq<T>, a: Action<T>)
    requires Inv(s, h, q, accepted)
    ensures var (s', e) := Step(s, a);
      Inv(s', h + (if e.Popped? then 1 else 0), FifoAfter(q, e), accepted + Accepted(e))
  {
    if a.Log? || a.OwnerStep? {
      OwnerKeepsInv(s, h, q, accepted, a);
    } else if a.WriterStep? && s.writer.Popping? {
      PopKeepsInv(s, h, q, accepted);
    } else {
      hide Holds, LfQueue.Step;
      assert accepted + [] == accepted;
    }
  }

  lemma OwnerKeepsInv<T>(s: Logger<T>, h: nat, q: seq<T>, accepted: seq<T>, a: Action<T>)
    requires Inv(s, h, q, accepted) && (a.Log? || a.OwnerStep?)
    ensures var (s', e) := Step(s, a);
      Inv(s', h + (if e.Popped? then 1 else 0), FifoAfter(q, e), accepted + Accepted(e))
  {
    hide Holds;
    QueueCapacity();
    var push := if a.Log? then LoadOwnTail(a.entry) else NextPush(s.ring.producer);
    ProducerStep(QUEUE_CAPACITY, 12, s.ring, h, q, push);
  }

  lemma PopKeepsInv<T>(s: Logger<T>, h: nat, q: seq<T>, accepted: seq<T>)
    requires Inv(s, h, q, accepted) && s.writer.Popping?
    ensures var (s', e) := Step(s, WriterStep);
      Inv(s', h + (if e.Popped? then 1 else 0), FifoAfter(q, e), accepted + Accepted(e))
  {
    hide Holds;
    QueueCapacity();
    ConsumerStep(QUEUE_CAPACITY, 12, s.ring, h, q, NextPop(s.ring.consumer));
  }

  lemma {:induction false} RunKeepsInv<T>(s: Logger<T>, h: nat, q: seq<T>, accepted: seq<T>, schedule: seq<Action<T>>)
    returns (h': nat, q': seq<T>)
    requires Inv(s, h, q, accepted)
    ensures var (s', es) := Run(s, schedule);
      Inv(s', h', q', accepted + PushedItems(es))
    decreases |schedule|
  {
    hide Inv, Step;
    if schedule == [] {
      assert accepted + [] == accepted;
      return h, q;
    }
    var (s1, e) := Step(s, schedule[0]);
    StepKeepsInv(s, h, q, accepted, schedule[0]);
    h', q' := RunKeepsInv(s1, h + (if e.Popped? then 1 else 0), FifoAfter(q, e), accepted + Accepted(e), schedule[1..]);
    var es := Run(s1, schedule[1..]).1;
    assert ([e] + es)[1..] == es;
    assert accepted + Accepted(e) + PushedItems(es) == accepted + PushedItems([e] + es);
  }

  lemma RunFromNew<T>(schedule: seq<Action<T>>) returns (h: nat, q: seq<T>)
    ensures var (s, es) := Run(New(), schedule);
      Inv(s, h, q, PushedItems(es))
  {
    EmptyHolds<T>(QUEUE_CAPACITY);
    h, q := RunKeepsInv(New(), 0, [], [], schedule);
    var es := Run(New<T>(), schedule).1;
    assert [] + PushedItems(es) == PushedItems(es);
  }

  /** In every interleaving the output is a prefix of the accepted entries, and once
      `drop` has joined the writer it is all of them, each once and in push order. */
  lemma ShutdownWritesEverything<T>(schedule: seq<Action<T>>)
    ensures var (s, es) := Run(New(), schedule);
      && s.output <= PushedItems(es)
      && (s.owner.Joined? ==> s.output == PushedItems(es))
  {
    var h, q := RunFromNew(schedule);
  }

  // ---------------------------------------------------------------- the join returns

  /** How many more actions the writer takes once the stop signal is up and the ring
      holds r more entries. */
  function StepsLeft<T>(w: Writer<T>, c: Consumer<T>, r: nat): int {
    match w
    case Finished => 0
    case CheckRunning => 5 * r + 3
    case Writing(last, _) => 5 * r + 3 + (if last then 0 else 3)
    case Popping(last) =>
      (if last then 0 else 3) +
      match c
      case Waiting => 5 * r + 2
      case GotHead(_) => 5 * r + 1
      case Claimed(_) => 5 * r
      case Fetched(_, _) => 5 * r - 1
  }

  /** A pop that runs on its own never stalls. */
  lemma PopAdvances<T>(r: Ring<T>, h: nat, q: seq<T>)
    requires Holds(QUEUE_CAPACITY, r, h, q)
    ensures var (r', e) := LfQueue.Step(QUEUE_CAPACITY, r, NextPop(r.consumer));
      match r.consumer
      case Waiting => r'.consumer.GotHead? && e == Silent
      case GotHead(_) =>
        if q == [] then r'.consumer.Waiting? && e == FoundEmpty else r'.consumer.Claimed? && e == Silent
      case Claimed(_) => q != [] && r'.consumer.Fetched? && e == Silent
      case Fetched(_, _) => q != [] && r'.consumer.Waiting? && e.Popped?
  {
    QueueCapacity();
    CapacityDividesWord(QUEUE_CAPACITY, 12);
    WrappedDistance(h, |q|);
    SlotOfWrapped(QUEUE_CAPACITY, 12, h);
    if q != [] { StoredTail(QUEUE_CAPACITY, r.buffer, h, q); }
    hide Slot, Cell;
  }

  /** After the signal each writer action uses up exactly one of the remaining actions. */
  lemma WriterStepCountsDown<T>(s: Logger<T>, h: nat, q: seq<T>, accepted: seq<T>)
    requires Inv(s, h, q, accepted) && !s.running
    ensures var (s', e) := Step(s, WriterStep);
      && StepsLeft(s.writer, s.ring.consumer, |q|) >= 0
      && (s.writer.Finished? <==> StepsLeft(s.writer, s.ring.consumer, |q|) == 0)
      && (!s.writer.Finished? ==>
           StepsLeft(s'.writer, s'.ring.consumer, |FifoAfter(q, e)|)
             == StepsLeft(s.writer, s.ring.consumer, |q|) - 1)
  {
    hide Holds, LfQueue.Step;
    PopAdvances(s.ring, h, q);
  }

  function WriterTurns<T>(k: nat): seq<Action<T>> {
    seq(k, _ => WriterStep)
  }

  /** Wherever the writer was when `running` was cleared, it has finished after exactly
      `StepsLeft` more actions of its own, so `drop` can always join it. */
  lemma {:induction false} WriterFinishes<T>(s: Logger<T>, h: nat, q: seq<T>, accepted: seq<T>, k: nat)
    requires Inv(s, h, q, accepted) && !s.running
    requires k == StepsLeft(s.writer, s.ring.consumer, |q|)
    ensures var s' := Run(s, WriterTurns(k)).0;
      s'.writer.Finished? && s'.output == accepted && s'.owner == s.owner
    decreases k
  {
    WriterStepCountsDown(s, h, q, accepted);
    if k == 0 {
    } else {
      var (s1, e) := Step(s, WriterStep);
      StepKeepsInv(s, h, q, accepted, WriterStep);
      assert accepted + Accepted(e) == accepted by {
        QueueCapacity();
        if s.writer.Popping? {
          ConsumerStep(QUEUE_CAPACITY, 12, s.ring, h, q, NextPop(s.ring.consumer));
        }
      }
      assert WriterTurns<T>(k)[1..] == WriterTurns<T>(k - 1);
      hide Holds;
      WriterFinishes(s1, h + (if e.Popped? then 1 else 0), FifoAfter(q, e), accepted, k - 1);
    }
  }

  /** From every state a run can reach after the signal, the writer finishes. */
  lemma JoinReturns<T>(schedule: seq<Action<T>>) returns (k: nat)
    requires !Run(New<T>(), schedule).0.running
    ensures var (s, es) := Run(New(), schedule);
      var s' := Run(s, WriterTurns(k)).0;
      s'.writer.Finished? && s'.output == PushedItems(es)
  {
    var (s, es) := Run(New(), schedule);
    var h, q := RunFromNew(schedule);
    WriterStepCountsDown(s, h, q, PushedItems(es));
    k := StepsLeft(s.writer, s.ring.consumer, |q|);
    WriterFinishes(s, h, q, PushedItems(es), k);
  }

  /** Dropping the logger at any time works: the stop is signalled, the writer finishes and is
      joined, and everything accepted has been written. */
  lemma DropWritesEverything<T>(schedule: seq<Action<T>>) returns (k: nat)
    requires var s := Run(New<T>(), schedule).0; s.owner.Live? && s.ring.producer.Idle?
    ensures var (s, es) := Run(New(), schedule);
      var stopped := Step(s, SignalStop).0;
      var drained := Run(stopped, WriterTurns(k)).0;
      var dropped := Step(drained, Join).0;
      !stopped.running && dropped.owner.Joined? && dropped.output == PushedItems(es)
  {
    hide Run, Inv;
    var (s, es) := Run(New(), schedule);
    var h, q := RunFromNew(schedule);
    var stopped := Step(s, SignalStop).0;
    StepKeepsInv(s, h, q, PushedItems(es), SignalStop);
    assert PushedItems(es) + [] == PushedItems(es);
    WriterStepCountsDown(stopped, h, q, PushedItems(es));
    k := StepsLeft(stopped.writer, stopped.ring.consumer, |q|);
    WriterFinishes(stopped, h, q, PushedItems(es), k);
  }

  // ---------------------------------------------------------------- nothing waits forever

  /** How many turns of its own the writer needs until n entries are written. */
  function TurnsTo<T>(s: Logger<T>, n: nat): int {
    var d := n - |s.output|;
    if d <= 0 then 0
    else
      match s.writer
      case Finished => 0
      case CheckRunning => 5 * d + 1
      case Writing(_, _) => 5 * d - 4
      case Popping(_) =>
        match s.ring.consumer
        case Waiting => 5 * d
        case GotHead(_) => 5 * d - 1
        case Claimed(_) => 5 * d - 2
        case Fetched(_, _) => 5 * d - 3
  }

  /** A turn of the writer brings it one closer; whatever else happens does not set it back. */
  lemma TurnCounts<T>(s: Logger<T>, h: nat, q: seq<T>, accepted: seq<T>, a: Action<T>, n: nat)
    requires Inv(s, h, q, accepted) && n <= |accepted|
    ensures TurnsTo(s, n) == 0 <==> n <= |s.output|
    ensures TurnsTo(s, n) >= 0
    ensures TurnsTo(Step(s, a).0, n) == Max(0, TurnsTo(s, n) - if a.WriterStep? then 1 else 0)
  {
    if a.WriterStep? {
      hide Holds, LfQueue.Step;
      PopAdvances(s.ring, h, q);
    } else {
      hide Holds;
    }
  }

  function WriterTurnsIn<T>(schedule: seq<Action<T>>): nat {
    if schedule == [] then 0 else (if schedule[0].WriterStep? then 1 else 0) + WriterTurnsIn(schedule[1..])
  }

  lemma {:induction false} EnoughTurnsWrite<T>(
    s: Logger<T>, h: nat, q: seq<T>, accepted: seq<T>, later: seq<Action<T>>, n: nat)
    requires Inv(s, h, q, accepted) && n <= |accepted|
    requires WriterTurnsIn(later) >= TurnsTo(s, n)
    ensures n <= |Run(s, later).0.output|
    decreases |later|
  {
    hide Inv, Step, TurnsTo;
    if later == [] {
      TurnCounts(s, h, q, accepted, WriterStep, n);
    } else {
      var (s1, e) := Step(s, later[0]);
      TurnCounts(s, h, q, accepted, later[0], n);
      StepKeepsInv(s, h, q, accepted, later[0]);
      EnoughTurnsWrite(s1, h + (if e.Popped? then 1 else 0), FifoAfter(q, e), accepted + Accepted(e), later[1..], n);
    }
  }

  /** In every interleaving, whatever was accepted is written once the writer has had enough
      turns, five for each entry not yet written and one more, whatever the owner does in
      between and whether or not it has signalled the stop. */
  lemma EveryEntryIsWritten<T>(first: seq<Action<T>>, later: seq<Action<T>>)
    requires var (s, es) := Run(New(), first);
      WriterTurnsIn(later) >= 5 * (|PushedItems(es)| - |s.output|) + 1
    ensures var (s, es) := Run(New(), first);
      PushedItems(es) <= Run(s, later).0.output
  {
    hide Run, Inv, Step;
    var (s, es) := Run(New(), first);
    var h, q := RunFromNew(first);
    var accepted := PushedItems(es);
    EnoughTurnsWrite(s, h, q, accepted, later, |accepted|);
    var h', q' := RunKeepsInv(s, h, q, accepted, later);
    OutputIsPrefix(Run(s, later).0, h', q', accepted + PushedItems(Run(s, later).1));
  }

  lemma OutputIsPrefix<T>(s: Logger<T>, h: nat, q: seq<T>, accepted: seq<T>)
    requires Inv(s, h, q, accepted)
    ensures s.output <= accepted
  {
    hide Holds;
  }

  // ---------------------------------------------------------------- a push completes

  function PushStepsLeft<T>(p: Producer<T>): nat {
    match p
    case Idle => 0
    case GotTail(_, _) => 3
    case Reserved(_, _) => 2
    case Written(_, _) => 1
  }

  function OwnerTurnsIn<T>(schedule: seq<Action<T>>): nat {
    if schedule == [] then 0 else (if schedule[0].OwnerStep? then 1 else 0) + OwnerTurnsIn(schedule[1..])
  }

  lemma PushAdvances<T>(s: Logger<T>, a: Action<T>)
    requires s.owner.Live? && !s.ring.producer.Idle?
    ensures var (s', e) := Step(s, a);
      if a.OwnerStep? && s'.ring.producer.Idle? then
        e == Pushed(s.ring.producer.item) || e == Refused(s.ring.producer.item)
      else
        && s'.owner.Live? && !s'.ring.producer.Idle? && s'.ring.producer.item == s.ring.producer.item
        && PushStepsLeft(s'.ring.producer) == PushStepsLeft(s.ring.producer) - if a.OwnerStep? then 1 else 0
  {
    hide Slot, WrappingSub, WrappingAdd;
  }

  /** A push under way is accepted or refused after at most three turns of the owner, whatever
      the writer does in between, and it is the entry that was logged that is. */
  lemma {:induction false} PushCompletes<T>(s: Logger<T>, later: seq<Action<T>>)
    requires s.owner.Live? && !s.ring.producer.Idle?
    requires OwnerTurnsIn(later) >= PushStepsLeft(s.ring.producer)
    ensures var es, x := Run(s, later).1, s.ring.producer.item;
      Pushed(x) in es || Refused(x) in es
    decreases |later|
  {
    hide Step;
    PushAdvances(s, later[0]);
    var (s1, e) := Step(s, later[0]);
    if s1.ring.producer.Idle? {
      assert Run(s, later).1[0] == e;
    } else {
      PushCompletes(s1, later[1..]);
      assert Run(s, later).1[1..] == Run(s1, later[1..]).1;
    }
  }

  /** So every entry logged while no push is under way is accepted or refused. */
  lemma LogCompletes<T>(s: Logger<T>, x: T, later: seq<Action<T>>)
    requires s.owner.Live? && s.ring.producer.Idle? && OwnerTurnsIn(later) >= 3
    ensures var es := Run(s, [Log(x)] + later).1;
      Pushed(x) in es || Refused(x) in es
  {
    var s1 := Step(s, Log(x)).0;
    PushCompletes(s1, later);
    assert ([Log(x)] + later)[1..] == later;
    assert Run(s, [Log(x)] + later).1[1..] == Run(s1, later).1;
  }
}
