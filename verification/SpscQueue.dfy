/**
 The lock-free single-producer / single-consumer ring (include/nomos/rt/spsc_queue.hpp).

 `push` and `pop` are split into their individual loads and stores, and the two threads' steps may
 interleave in any way.  Atomics are taken as sequentially consistent.  Storing an item is two steps,
 the first of which leaves an arbitrary value in the slot, so that a torn read would be visible, and
 taking one leaves in the slot whatever a moved-from item is.
 Masking with Capacity - 1 only ever meets values below twice the capacity, where it subtracts the
 capacity if needed, and differences of two indices, where it adds it.
 */
module SpscQueue {

  /** Where the producer is inside push, with its local copies. */
  datatype Producer<T> =
    | PIdle
    | PLoaded(item: T, at: nat)     // head_ loaded, tail_ not yet
    | PChecked(item: T, at: nat)    // tail_ loaded, room seen; the slot is about to be written
    | PWriting(item: T, at: nat)    // the slot is partly written
    | PWritten(item: T, at: nat)    // the slot is written, head_ not yet stored

  /** Where the consumer is inside pop. */
  datatype Consumer<T> =
    | CIdle
    | CLoaded(at: nat)              // tail_ loaded, head_ not yet
    | CChecked(at: nat)             // head_ loaded, an item seen; the slot is about to be read
    | CTaken(at: nat, item: T)      // the slot is read, tail_ not yet stored

  /**
   The shared memory, the two program counters, and the history: items published by pushes and items returned by
   pops.
   */
  datatype Ring<T> = Ring(
    slots: seq<T>, head: nat, tail: nat,
    producer: Producer<T>, consumer: Consumer<T>,
    accepted: seq<T>, popped: seq<T>)
  {
    function Cap(): nat { |slots| }
  }

  datatype Step<T> =
    | PushLoad(item: T) | PushCheck | PushScribble(junk: T) | PushWrite | PushPublish
    | PopLoad | PopCheck | PopRead(moved: T) | PopPublish

  predicate Enabled<T>(s: Ring<T>, a: Step<T>) {
    match a
    case PushLoad(_) => s.producer.PIdle?
    case PushCheck => s.producer.PLoaded?
    case PushScribble(_) => s.producer.PChecked? && s.producer.at < |s.slots|
    case PushWrite => s.producer.PWriting? && s.producer.at < |s.slots|
    case PushPublish => s.producer.PWritten?
    case PopLoad => s.consumer.CIdle?
    case PopCheck => s.consumer.CLoaded?
    case PopRead(_) => s.consumer.CChecked? && s.consumer.at < |s.slots|
    case PopPublish => s.consumer.CTaken?
  }

  /** (i + k) & mask_ for an index i and a distance k within the ring. */
  function Ahead(i: nat, k: nat, cap: nat): nat {
    if i + k < cap then i + k else i + k - cap
  }

  function Do<T>(s: Ring<T>, a: Step<T>): Ring<T>
    requires Enabled(s, a)
  {
    match a
    case PushLoad(item) => s.(producer := PLoaded(item, s.head))
    case PushCheck =>
      if Ahead(s.producer.at, 1, s.Cap()) == s.tail then s.(producer := PIdle)   // full
      else s.(producer := PChecked(s.producer.item, s.producer.at))
    case PushScribble(junk) =>
      s.(slots := s.slots[s.producer.at := junk], producer := PWriting(s.producer.item, s.producer.at))
    case PushWrite =>
      s.(slots := s.slots[s.producer.at := s.producer.item], producer := PWritten(s.producer.item, s.producer.at))
    case PushPublish =>
      s.(head := Ahead(s.producer.at, 1, s.Cap()), producer := PIdle, accepted := s.accepted + [s.producer.item])
    case PopLoad => s.(consumer := CLoaded(s.tail))
    case PopCheck =>
      if s.consumer.at == s.head then s.(consumer := CIdle)   // empty
      else s.(consumer := CChecked(s.consumer.at))
    case PopRead(moved) =>
      s.(slots := s.slots[s.consumer.at := moved], consumer := CTaken(s.consumer.at, s.slots[s.consumer.at]))
    case PopPublish =>
      s.(tail := Ahead(s.consumer.at, 1, s.Cap()), consumer := CIdle, popped := s.popped + [s.consumer.item])
  }

  predicate Init<T>(s: Ring<T>) {
    && s.Cap() >= 2 && s.head == 0 && s.tail == 0
    && s.producer.PIdle? && s.consumer.CIdle? && s.accepted == [] && s.popped == []
  }

  /** `trace` is an interleaving of the two threads' steps that starts in an initial state. */
  ghost predicate IsRun<T(!new)>(trace: seq<Ring<T>>) {
    && |trace| > 0 && Init(trace[0])
    && forall i :: 0 <= i < |trace| - 1 ==> StepAt(trace, i)
  }

  ghost predicate StepAt<T(!new)>(trace: seq<Ring<T>>, i: nat)
    requires i + 1 < |trace|
  {
    StepTo(trace[i], trace[i + 1])
  }

  ghost predicate StepTo<T(!new)>(s: Ring<T>, s': Ring<T>) {
    exists a :: Enabled(s, a) && s' == Do(s, a)
  }

  // ---------------------------------------------------------------------------
  // The FIFO it implements
  // ---------------------------------------------------------------------------

  /** The items in flight: published and not yet popped. */
  function Queue<T>(s: Ring<T>): seq<T>
    requires |s.popped| <= |s.accepted|
  {
    s.accepted[|s.popped|..]
  }

  predicate Room<T>(s: Ring<T>) { |s.accepted| < |s.popped| + s.Cap() - 1 }

  /** The inductive invariant. */
  ghost predicate Inv<T>(s: Ring<T>) {
    && s.Cap() >= 2
    && s.popped <= s.accepted
    && |s.accepted| <= |s.popped| + s.Cap() - 1
    && s.tail < s.Cap() && s.head == Ahead(s.tail, |s.accepted| - |s.popped|, s.Cap())
    && Stored(s)
    && (s.producer.PIdle? || s.producer.at == s.head)
    && (s.producer.PChecked? || s.producer.PWriting? || s.producer.PWritten? ==> Room(s))
    && (s.producer.PWritten? ==> s.slots[s.head] == s.producer.item)
    && (s.consumer.CIdle? || s.consumer.at == s.tail)
    && (s.consumer.CChecked? || s.consumer.CTaken? ==> |s.popped| < |s.accepted|)
    && (s.consumer.CTaken? ==> s.consumer.item == s.accepted[|s.popped|])
  }

  /** Every item in flight is in its slot, except one that the consumer has just moved out. */
  ghost predicate Stored<T>(s: Ring<T>)
    requires |s.popped| <= |s.accepted| <= |s.popped| + s.Cap() - 1 && s.tail < s.Cap()
  {
    forall k :: (if s.consumer.CTaken? then 1 else 0) <= k < |s.accepted| - |s.popped| ==>
      s.slots[Ahead(s.tail, k, s.Cap())] == s.accepted[|s.popped| + k]
  }

  lemma {:induction false} ProducerKeepsInv<T>(s: Ring<T>, a: Step<T>)
    requires Inv(s) && Enabled(s, a)
    requires a.PushLoad? || a.PushCheck? || a.PushScribble? || a.PushWrite? || a.PushPublish?
    ensures Inv(Do(s, a))
  {
  }

  lemma {:induction false} ConsumerKeepsInv<T>(s: Ring<T>, a: Step<T>)
    requires Inv(s) && Enabled(s, a) && (a.PopLoad? || a.PopCheck? || a.PopRead?)
    ensures Inv(Do(s, a))
  {
    if a.PopRead? {
      assert s.slots[Ahead(s.tail, 0, s.Cap())] == s.accepted[|s.popped| + 0];
    }
  }

  lemma {:induction false} StepKeepsInv<T>(s: Ring<T>, a: Step<T>)
    requires Inv(s) && Enabled(s, a)
    ensures Inv(Do(s, a))
  {
    match a {
      case PopPublish => PopKeepsStored(s);
      case PopLoad => ConsumerKeepsInv(s, a);
      case PopCheck => ConsumerKeepsInv(s, a);
      case PopRead(_) => ConsumerKeepsInv(s, a);
      case _ => ProducerKeepsInv(s, a);
    }
  }

  lemma {:induction false} PopKeepsStored<T>(s: Ring<T>)
    requires Inv(s) && s.consumer.CTaken?
    ensures Inv(Do(s, PopPublish))
  {
    var s' := Do(s, PopPublish);
    assert s'.popped <= s'.accepted;
    forall k | 0 <= k < |s'.accepted| - |s'.popped|
      ensures s'.slots[Ahead(s'.tail, k, s.Cap())] == s'.accepted[|s'.popped| + k]
    {
      assert Ahead(s'.tail, k, s.Cap()) == Ahead(s.tail, k + 1, s.Cap());
    }
  }

  /** The full test is exact: it succeeds if and only if there is no room at that instant. */
  lemma {:induction false} CheckPush<T>(s: Ring<T>)
    requires Inv(s) && s.producer.PLoaded?
    ensures Ahead(s.producer.at, 1, s.Cap()) == s.tail <==> !Room(s)
  {
  }

  /** The empty test is exact as well. */
  lemma {:induction false} CheckPop<T>(s: Ring<T>)
    requires Inv(s) && s.consumer.CLoaded?
    ensures s.consumer.at == s.head <==> |s.popped| == |s.accepted|
  {
  }

  // ---------------------------------------------------------------------------
  // Results over every interleaving
  // ---------------------------------------------------------------------------

  lemma {:induction false} RunKeepsInv<T(!new)>(trace: seq<Ring<T>>, i: nat)
    requires IsRun(trace) && i < |trace|
    ensures Inv(trace[i]) && trace[i].Cap() == trace[0].Cap()
    decreases i
  {
    if i > 0 {
      RunKeepsInv(trace, i - 1);
      assert StepAt(trace, i - 1);
      var a :| Enabled(trace[i - 1], a) && trace[i] == Do(trace[i - 1], a);
      StepKeepsInv(trace[i - 1], a);
    }
  }

  /**
   In every reachable state the popped items are a prefix of the accepted pushes and at most Capacity - 1 are in
   flight.
   */
  lemma {:induction false} FifoOrder<T(!new)>(trace: seq<Ring<T>>, i: nat)
    requires IsRun(trace) && i < |trace|
    ensures var s := trace[i]; s.popped <= s.accepted && |Queue(s)| <= trace[0].Cap() - 1
    ensures var s := trace[i]; s.accepted == s.popped + Queue(s)
  {
    RunKeepsInv(trace, i);
  }

  /** No slot is being written while it is being read, nor written while an unread item is in it. */
  lemma {:induction false} NoSlotRace<T(!new)>(trace: seq<Ring<T>>, i: nat)
    requires IsRun(trace) && i < |trace|
    ensures var s := trace[i];
            (s.producer.PChecked? || s.producer.PWriting?) && (s.consumer.CChecked? || s.consumer.CTaken?)
            ==> s.producer.at != s.consumer.at
    ensures var s := trace[i];
            s.producer.PChecked? || s.producer.PWriting? ==>
            forall k :: 0 <= k < |s.accepted| - |s.popped| ==> Ahead(s.tail, k, trace[0].Cap()) != s.producer.at
  {
    RunKeepsInv(trace, i);
  }

  /** What one step of either thread does to the FIFO: an atomic enqueue, dequeue, or nothing. */
  datatype Effect<T> = Enqueue(x: T) | Dequeue(x: T) | RejectFull | RejectEmpty | Internal

  function EffectOf<T>(s: Ring<T>, a: Step<T>): Effect<T>
    requires Enabled(s, a)
  {
    match a
    case PushPublish => Enqueue(s.producer.item)
    case PopPublish => Dequeue(s.consumer.item)
    case PushCheck => if Do(s, a).producer.PIdle? then RejectFull else Internal
    case PopCheck => if Do(s, a).consumer.CIdle? then RejectEmpty else Internal
    case _ => Internal
  }

  /** The specification: a bounded FIFO whose operations are atomic. */
  predicate FifoStep<T(==)>(cap: nat, q: seq<T>, e: Effect<T>, q': seq<T>) {
    match e
    case Enqueue(x) => |q| < cap - 1 && q' == q + [x]
    case Dequeue(x) => |q| > 0 && x == q[0] && q' == q[1..]
    case RejectFull => |q| == cap - 1 && q' == q
    case RejectEmpty => q == [] && q' == q
    case Internal => q' == q
  }

  /**
   Refinement: from every reachable state, every step of either thread acts on the items in flight as
   the atomic bounded FIFO allows.  In particular a push fails only when the queue is full, and a pop
   only when it is empty, at the instant of the acquire load.
   */
  lemma {:induction false} RefinesFifo<T(!new)>(trace: seq<Ring<T>>, i: nat, a: Step<T>)
    requires IsRun(trace) && i < |trace| && Enabled(trace[i], a)
    ensures var s, s' := trace[i], Do(trace[i], a);
            && |s.popped| <= |s.accepted| && |s'.popped| <= |s'.accepted|
            && FifoStep(trace[0].Cap(), Queue(s), EffectOf(s, a), Queue(s'))
  {
    RunKeepsInv(trace, i);
    var s := trace[i];
    StepKeepsInv(s, a);
    match a {
      case PushCheck => CheckPush(s);
      case PopCheck => CheckPop(s);
      case _ =>
    }
  }

  // ---------------------------------------------------------------------------
  // size() and empty()
  // ---------------------------------------------------------------------------

  /** What size() returns when it loads head_ in state `s` and tail_ in state `t`. */
  function Size<T>(s: Ring<T>, t: Ring<T>): int {
    if s.head >= t.tail then s.head - t.tail else s.head - t.tail + s.Cap()
  }

  /** Along a run the histories only grow, and each index moves only with its history. */
  lemma {:induction false} Monotone<T(!new)>(trace: seq<Ring<T>>, i: nat, j: nat)
    requires IsRun(trace) && i <= j < |trace|
    ensures trace[i].accepted <= trace[j].accepted && trace[i].popped <= trace[j].popped
    ensures |trace[i].accepted| == |trace[j].accepted| ==> trace[i].head == trace[j].head
    ensures |trace[i].popped| == |trace[j].popped| ==> trace[i].tail == trace[j].tail
    decreases j
  {
    if i < j {
      Monotone(trace, i, j - 1);
      assert StepAt(trace, j - 1);
    }
  }

  /**
   Called by the consumer, which pops nothing between the two loads, size() is the number of items in
   flight when head_ was loaded, and never more than the number there when it returns.
   */
  lemma {:induction false} SizeForConsumer<T(!new)>(trace: seq<Ring<T>>, i: nat, j: nat)
    requires IsRun(trace) && i <= j < |trace|
    requires |trace[i].popped| == |trace[j].popped|
    ensures |trace[i].popped| <= |trace[i].accepted| && |trace[j].popped| <= |trace[j].accepted|
    ensures Size(trace[i], trace[j]) == |Queue(trace[i])| <= |Queue(trace[j])|
  {
    RunKeepsInv(trace, i);
    RunKeepsInv(trace, j);
    Monotone(trace, i, j);
  }

  /**
   Called by the producer, which publishes nothing between the two loads, size() is the number of items
   in flight when tail_ was loaded, so the free space it suggests is really there.
   */
  lemma {:induction false} SizeForProducer<T(!new)>(trace: seq<Ring<T>>, i: nat, j: nat)
    requires IsRun(trace) && i <= j < |trace|
    requires |trace[i].accepted| == |trace[j].accepted|
    ensures |trace[j].popped| <= |trace[j].accepted|
    ensures Size(trace[i], trace[j]) == |Queue(trace[j])|
  {
    RunKeepsInv(trace, i);
    RunKeepsInv(trace, j);
    Monotone(trace, i, j);
  }

  /** What empty() returns when it loads head_ in state `s` and tail_ in state `t`. */
  predicate Empty<T>(s: Ring<T>, t: Ring<T>) { s.head == t.tail }

  /** For the consumer empty() is exact at the load of head_. */
  lemma {:induction false} EmptyForConsumer<T(!new)>(trace: seq<Ring<T>>, i: nat, j: nat)
    requires IsRun(trace) && i <= j < |trace| && |trace[i].popped| == |trace[j].popped|
    ensures |trace[i].popped| <= |trace[i].accepted|
    ensures Empty(trace[i], trace[j]) <==> Queue(trace[i]) == []
  {
    RunKeepsInv(trace, i);
    Monotone(trace, i, j);
  }

  /** For the producer it is exact at the load of tail_. */
  lemma {:induction false} EmptyForProducer<T(!new)>(trace: seq<Ring<T>>, i: nat, j: nat)
    requires IsRun(trace) && i <= j < |trace| && |trace[i].accepted| == |trace[j].accepted|
    ensures |trace[j].popped| <= |trace[j].accepted|
    ensures Empty(trace[i], trace[j]) <==> Queue(trace[j]) == []
  {
    RunKeepsInv(trace, j);
    Monotone(trace, i, j);
  }

  // ---------------------------------------------------------------------------
  // Draining
  // ---------------------------------------------------------------------------

  /**
   A consumer that pops until a pop finds the ring empty, as the scheduler's tick does, is as good as atomic: from
   any state `i` to the failing check in state `j` it has popped exactly what was in flight in state `i` followed by
   everything the producer got accepted in between, and at that instant nothing is left.
   */
  lemma {:induction false} DrainIsAtomic<T(!new)>(trace: seq<Ring<T>>, i: nat, j: nat)
    requires IsRun(trace) && i <= j < |trace|
    requires trace[j].consumer.CLoaded? && trace[j].consumer.at == trace[j].head
    ensures |trace[i].popped| <= |trace[i].accepted| && trace[i].popped <= trace[j].popped
    ensures trace[i].accepted <= trace[j].accepted && trace[j].popped == trace[j].accepted
    ensures trace[j].popped[|trace[i].popped|..] == Queue(trace[i]) + trace[j].accepted[|trace[i].accepted|..]
  {
    RunKeepsInv(trace, i);
    RunKeepsInv(trace, j);
    Monotone(trace, i, j);
    CheckPop(trace[j]);
    var popped, before := |trace[i].popped|, |trace[i].accepted|;
    assert trace[j].accepted[..before] == trace[i].accepted;
    assert trace[j].accepted[popped..] == trace[j].accepted[popped..before] + trace[j].accepted[before..];
  }

  // ---------------------------------------------------------------------------
  // One thread at a time
  // ---------------------------------------------------------------------------

  /** The ring as an object, for callers whose push and pop calls do not overlap. */
  class RingBuffer<T(0)> {
    const slots: array<T>
    var head: nat
    var tail: nat
    ghost var contents: seq<T>

    ghost predicate Valid()
      reads this, slots
    {
      && slots.Length >= 2
      && |contents| < slots.Length
      && tail < slots.Length
      && head == Ahead(tail, |contents|, slots.Length)
      && forall k {:trigger Ahead(tail, k, slots.Length)} ::
           0 <= k < |contents| ==> slots[Ahead(tail, k, slots.Length)] == contents[k]
    }

    constructor (capacity: nat)
      requires capacity >= 2
      ensures Valid() && fresh(slots) && slots.Length == capacity && contents == []
    {
      slots := new T[capacity];
      head, tail, contents := 0, 0, [];
    }

    method Push(item: T) returns (ok: bool)
      requires Valid()
      modifies this, slots
      ensures Valid()
      ensures ok == (|old(contents)| < slots.Length - 1)
      ensures contents == if ok then old(contents) + [item] else old(contents)
    {
      var next := Ahead(head, 1, slots.Length);
      if next == tail {
        return false;
      }
      slots[head] := item;
      head := next;
      contents := contents + [item];
      ok := true;
    }

    /** The slot of a popped item is left with any value. */
    method Pop() returns (ok: bool, item: T)
      requires Valid()
      modifies this, slots
      ensures Valid()
      ensures ok == (old(contents) != [])
      ensures if ok then item == old(contents)[0] && contents == old(contents)[1..] else contents == old(contents)
    {
      item := slots[tail];
      if tail == head {
        return false, item;
      }
      assert item == slots[Ahead(tail, 0, slots.Length)];
      ghost var t := tail;
      slots[tail] := *;
      tail := Ahead(tail, 1, slots.Length);
      contents := contents[1..];
      forall k | 0 <= k < |contents| ensures slots[Ahead(tail, k, slots.Length)] == contents[k] {
        assert Ahead(tail, k, slots.Length) == Ahead(t, k + 1, slots.Length);
      }
      ok := true;
    }
  }
}
