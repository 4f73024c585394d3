/**
 The beat-quantised event scheduler (include/nomos/rt/event_scheduler.hpp): events are staged by one
 thread, and each tick of the other drains the staging queue, sorts the pending list by beat with a
 stable sort, fires every event that is due and erases it.

 Beats are reals.  A push that overlaps a tick counts as before it if the drain still pops it, and as after it
 otherwise: SpscQueue.DrainIsAtomic shows that under every interleaving a drain takes exactly the items that were
 staged when it began and those accepted while it ran, in order.
 */
module EventScheduler {
  import opened Basics
  import opened SpscQueue

  /** scheduled_event: a CLAP event for the callback or an OSC datagram for the sender thread. */
  datatype Event<C, O> = Clap(beat: real, event: C) | Osc(beat: real, osc: O)

  // ---------------------------------------------------------------------------
  // Stable sorting
  // ---------------------------------------------------------------------------

  ghost predicate Sorted<C, O>(s: seq<Event<C, O>>) {
    forall i, j :: 0 <= i < j < |s| ==> s[i].beat <= s[j].beat
  }

  /** Puts `e` behind every event that is not later than it. */
  function Insert<C, O>(s: seq<Event<C, O>>, e: Event<C, O>): seq<Event<C, O>> {
    if s == [] || s[|s| - 1].beat <= e.beat then s + [e]
    else Insert(s[..|s| - 1], e) + [s[|s| - 1]]
  }

  /** std::stable_sort by beat. */
  function StableSort<C, O>(s: seq<Event<C, O>>): seq<Event<C, O>> {
    if s == [] then [] else Insert(StableSort(s[..|s| - 1]), s[|s| - 1])
  }

  /** Which events to look at: those at beat `b`, those due at `b`, or those later than `b`. */
  datatype Query = At(b: real) | UpTo(b: real) | Beyond(b: real)

  predicate Matches<C, O>(q: Query, e: Event<C, O>) {
    match q
    case At(b) => e.beat == b
    case UpTo(b) => e.beat <= b
    case Beyond(b) => e.beat > b
  }

  /** The events of `s` that `q` asks for, in order. */
  function Pick<C, O>(s: seq<Event<C, O>>, q: Query): seq<Event<C, O>> {
    if s == [] then [] else Pick(s[..|s| - 1], q) + One(s[|s| - 1], q)
  }

  function One<C, O>(e: Event<C, O>, q: Query): seq<Event<C, O>> { if Matches(q, e) then [e] else [] }

  lemma {:induction false} PickSnoc<C, O>(s: seq<Event<C, O>>, e: Event<C, O>, q: Query)
    ensures Pick(s + [e], q) == Pick(s, q) + One(e, q)
  {
    assert (s + [e])[..|s + [e]| - 1] == s;
  }

  lemma {:induction false} PickConcat<C, O>(s: seq<Event<C, O>>, t: seq<Event<C, O>>, q: Query)
    ensures Pick(s + t, q) == Pick(s, q) + Pick(t, q)
  {
    if t == [] {
      assert s + t == s;
    } else {
      var front, e := t[..|t| - 1], t[|t| - 1];
      assert s + t == (s + front) + [e];
      assert Pick(t, q) == Pick(front, q) + One(e, q);
      PickSnoc(s + front, e, q);
      PickConcat(s, front, q);
      assert Pick(s, q) + Pick(front, q) + One(e, q) == Pick(s, q) + (Pick(front, q) + One(e, q));
    }
  }

  lemma {:induction false} PickMembers<C, O>(s: seq<Event<C, O>>, q: Query)
    ensures forall e :: e in Pick(s, q) <==> e in s && Matches(q, e)
  {
    if s != [] {
      var front, last := s[..|s| - 1], s[|s| - 1];
      PickMembers(front, q);
      assert forall e :: e in s <==> e in front || e == last;
      assert Pick(s, q) == Pick(front, q) + One(last, q);
    }
  }

  /** Whether a query lets the events of beat `x` through. */
  predicate Covers(q: Query, x: real) {
    match q
    case At(b) => x == b
    case UpTo(b) => x <= b
    case Beyond(b) => x > b
  }

  /** Asking for one beat among the events of another query: all of that beat's events, or none. */
  lemma {:induction false} PickWithin<C, O>(s: seq<Event<C, O>>, q: Query, x: real)
    ensures Pick(Pick(s, q), At(x)) == if Covers(q, x) then Pick(s, At(x)) else []
  {
    if s != [] {
      var front, e := s[..|s| - 1], s[|s| - 1];
      PickWithin(front, q, x);
      assert Pick(s, q) == Pick(front, q) + One(e, q);
      assert Pick(s, At(x)) == Pick(front, At(x)) + One(e, At(x));
      PickOne(Pick(front, q), e, q, x);
    }
  }

  lemma {:induction false} PickOne<C, O>(s: seq<Event<C, O>>, e: Event<C, O>, q: Query, x: real)
    ensures Pick(s + One(e, q), At(x)) == Pick(s, At(x)) + if Covers(q, x) then One(e, At(x)) else []
  {
    if Matches(q, e) {
      PickSnoc(s, e, At(x));
    } else {
      assert s + One(e, q) == s;
    }
  }

  lemma {:induction false} InsertCorrect<C, O>(s: seq<Event<C, O>>, e: Event<C, O>)
    requires Sorted(s)
    ensures Sorted(Insert(s, e))
    ensures forall k :: 0 <= k < |Insert(s, e)| ==> Insert(s, e)[k] == e || Insert(s, e)[k] in s
  {
    if s != [] && s[|s| - 1].beat > e.beat {
      InsertCorrect(s[..|s| - 1], e);
    }
  }

  lemma {:induction false} InsertAt<C, O>(s: seq<Event<C, O>>, e: Event<C, O>, x: real)
    ensures Pick(Insert(s, e), At(x)) == Pick(s, At(x)) + One(e, At(x))
  {
    if s == [] || s[|s| - 1].beat <= e.beat {
      PickSnoc(s, e, At(x));
    } else {
      var front, last := s[..|s| - 1], s[|s| - 1];
      InsertAt(front, e, x);
      PickBehind(Insert(front, e), Pick(front, At(x)), e, last, x);
    }
  }

  lemma {:induction false} PickBehind<C, O>(
    s: seq<Event<C, O>>, picked: seq<Event<C, O>>, e: Event<C, O>, last: Event<C, O>, x: real)
    requires Pick(s, At(x)) == picked + One(e, At(x)) && e.beat != last.beat
    ensures Pick(s + [last], At(x)) == picked + One(last, At(x)) + One(e, At(x))
  {
    PickSnoc(s, last, At(x));
    Commute(picked, One(e, At(x)), One(last, At(x)));
  }

  lemma {:induction false} Commute<T>(a: seq<T>, b: seq<T>, c: seq<T>)
    requires b == [] || c == []
    ensures a + b + c == a + c + b
  {
  }

  /** Sorting sorts, and keeps the events of each beat in their order of arrival. */
  lemma {:induction false} SortCorrect<C, O>(s: seq<Event<C, O>>)
    ensures Sorted(StableSort(s))
    ensures forall x :: Pick(StableSort(s), At(x)) == Pick(s, At(x))
  {
    if s != [] {
      var front, e := s[..|s| - 1], s[|s| - 1];
      SortCorrect(front);
      InsertCorrect(StableSort(front), e);
      forall x ensures Pick(StableSort(s), At(x)) == Pick(s, At(x)) {
        InsertAt(StableSort(front), e, x);
      }
    }
  }

  ghost predicate SameAtEachBeat<C, O>(s: seq<Event<C, O>>, t: seq<Event<C, O>>) {
    forall x :: Pick(s, At(x)) == Pick(t, At(x))
  }

  /** A sorted sequence is determined by its events at each beat, so the stable sort is the only one there is. */
  lemma {:induction false} SortedUnique<C, O>(s: seq<Event<C, O>>, t: seq<Event<C, O>>)
    requires Sorted(s) && Sorted(t) && SameAtEachBeat(s, t)
    ensures s == t
    decreases |s|
  {
    if s != [] {
      SameLast(s, t);
      DropLast(s, t);
      SortedUnique(s[..|s| - 1], t[..|t| - 1]);
      assert s == s[..|s| - 1] + [s[|s| - 1]] && t == t[..|t| - 1] + [t[|t| - 1]];
    } else if t != [] {
      SameLast(t, s);
    }
  }

  lemma {:induction false} DropLast<C, O>(s: seq<Event<C, O>>, t: seq<Event<C, O>>)
    requires s != [] && t != [] && s[|s| - 1] == t[|t| - 1] && SameAtEachBeat(s, t)
    ensures SameAtEachBeat(s[..|s| - 1], t[..|t| - 1])
  {
    forall x ensures Pick(s[..|s| - 1], At(x)) == Pick(t[..|t| - 1], At(x)) {
      CancelRight(Pick(s[..|s| - 1], At(x)), Pick(t[..|t| - 1], At(x)), One(s[|s| - 1], At(x)));
    }
  }

  lemma {:induction false} CancelRight<T>(a: seq<T>, b: seq<T>, c: seq<T>)
    requires a + c == b + c
    ensures a == b
  {
    assert |a + c| == |b + c|;
    assert a == (a + c)[..|a|] && b == (b + c)[..|b|];
  }

  /** The last event of a sorted sequence is at the greatest beat, and the last one at that beat. */
  lemma {:induction false} SameLast<C, O>(s: seq<Event<C, O>>, t: seq<Event<C, O>>)
    requires Sorted(s) && Sorted(t) && s != [] && SameAtEachBeat(s, t)
    ensures t != [] && t[|t| - 1] == s[|s| - 1]
  {
    var e := s[|s| - 1];
    MemberOfBoth(s, t, e);
    var f := t[|t| - 1];
    assert SameAtEachBeat(t, s);
    MemberOfBoth(t, s, f);
    assert f.beat == e.beat;
    var p, q := Pick(s[..|s| - 1], At(e.beat)), Pick(t[..|t| - 1], At(e.beat));
    assert p + [e] == q + [f];
    assert (p + [e])[|p|] == e && (q + [f])[|q|] == f;
  }

  lemma {:induction false} MemberOfBoth<C, O>(s: seq<Event<C, O>>, t: seq<Event<C, O>>, e: Event<C, O>)
    requires SameAtEachBeat(s, t) && e in s
    ensures e in t
  {
    PickMembers(s, At(e.beat));
    PickMembers(t, At(e.beat));
    assert e in Pick(s, At(e.beat));
  }

  /** In a sorted sequence the due events are a prefix. */
  lemma {:induction false} SortedSplit<C, O>(s: seq<Event<C, O>>, b: real)
    requires Sorted(s)
    ensures s == Pick(s, UpTo(b)) + Pick(s, Beyond(b))
  {
    if s != [] {
      var front, e := s[..|s| - 1], s[|s| - 1];
      var due, later := Pick(front, UpTo(b)), Pick(front, Beyond(b));
      assert Pick(s, UpTo(b)) == due + One(e, UpTo(b));
      assert Pick(s, Beyond(b)) == later + One(e, Beyond(b));
      assert s == front + [e];
      SortedSplit(front, b);
      if e.beat <= b {
        PickVoid(front, Beyond(b));
      }
      CrossRegroup(due, later, One(e, UpTo(b)), One(e, Beyond(b)));
    }
  }

  lemma {:induction false} CrossRegroup<T>(a: seq<T>, b: seq<T>, c: seq<T>, d: seq<T>)
    requires b == [] || c == []
    ensures (a + c) + (b + d) == (a + b) + (c + d)
  {
  }

  lemma {:induction false} PickVoid<C, O>(s: seq<Event<C, O>>, q: Query)
    requires forall k :: 0 <= k < |s| ==> !Matches(q, s[k])
    ensures Pick(s, q) == []
  {
    if s != [] {
      PickVoid(s[..|s| - 1], q);
    }
  }

  lemma {:induction false} PickWhole<C, O>(s: seq<Event<C, O>>, q: Query)
    requires forall k :: 0 <= k < |s| ==> Matches(q, s[k])
    ensures Pick(s, q) == s
  {
    if s != [] {
      var front, e := s[..|s| - 1], s[|s| - 1];
      PickWhole(front, q);
      assert Pick(s, q) == front + [e];
    }
  }

  lemma {:induction false} PickSplit<C, O>(due: seq<Event<C, O>>, later: seq<Event<C, O>>, b: real)
    requires (forall k :: 0 <= k < |due| ==> due[k].beat <= b) && (forall k :: 0 <= k < |later| ==> later[k].beat > b)
    ensures Pick(due + later, UpTo(b)) == due && Pick(due + later, Beyond(b)) == later
  {
    PickConcat(due, later, UpTo(b));
    PickConcat(due, later, Beyond(b));
    PickWhole(due, UpTo(b));
    PickVoid(due, Beyond(b));
    PickVoid(later, UpTo(b));
    PickWhole(later, Beyond(b));
  }

  /** The prefix at which firing stops is all that is due. */
  lemma {:induction false} DueIsPrefix<C, O>(s: seq<Event<C, O>>, n: nat, b: real)
    requires Sorted(s) && n <= |s| && (forall k :: 0 <= k < n ==> s[k].beat <= b) && (n == |s| || s[n].beat > b)
    ensures s[..n] == Pick(s, UpTo(b)) && s[n..] == Pick(s, Beyond(b))
  {
    forall k | 0 <= k < |s[n..]| ensures s[n..][k].beat > b {
      assert s[n..][k] == s[n + k];
    }
    PickSplit(s[..n], s[n..], b);
    Halves(s, n);
  }

  lemma {:induction false} Halves<T>(s: seq<T>, n: nat)
    requires n <= |s|
    ensures s[..n] + s[n..] == s
  {
  }

  // ---------------------------------------------------------------------------
  // Whole runs
  // ---------------------------------------------------------------------------

  /** Everything fired so far, what is pending and staged, and every push the staging queue accepted. */
  datatype Model<C, O> = Model(
    fired: seq<Event<C, O>>, pending: seq<Event<C, O>>, staged: seq<Event<C, O>>, accepted: seq<Event<C, O>>)

  datatype Action<C, O> = Push(e: Event<C, O>) | Tick(beat: real)

  function DoPush<C, O>(m: Model<C, O>, e: Event<C, O>): Model<C, O> {
    m.(staged := m.staged + [e], accepted := m.accepted + [e])
  }

  function DoTick<C, O>(m: Model<C, O>, beat: real): Model<C, O> {
    var all := StableSort(m.pending + m.staged);
    m.(fired := m.fired + Pick(all, UpTo(beat)), pending := Pick(all, Beyond(beat)), staged := [])
  }

  function Do<C, O>(m: Model<C, O>, a: Action<C, O>): Model<C, O> {
    match a
    case Push(e) => DoPush(m, e)
    case Tick(beat) => DoTick(m, beat)
  }

  function Exec<C, O>(acts: seq<Action<C, O>>): Model<C, O> {
    if acts == [] then Model([], [], [], []) else Do(Exec(acts[..|acts| - 1]), acts[|acts| - 1])
  }

  /**
   At every beat, the fired, pending and staged events of that beat, in this order, are exactly the
   accepted ones in order of arrival: nothing is lost, duplicated or overtaken within a beat.
   */
  ghost predicate Conserved<C, O>(m: Model<C, O>) {
    forall x :: Pick(m.fired, At(x)) + Pick(m.pending, At(x)) + Pick(m.staged, At(x)) == Pick(m.accepted, At(x))
  }

  /** Splitting a sorted list at a beat keeps the events of each beat together. */
  lemma {:induction false} SplitAt<C, O>(fired: seq<Event<C, O>>, all: seq<Event<C, O>>, beat: real, x: real)
    ensures Pick(fired + Pick(all, UpTo(beat)), At(x)) + Pick(Pick(all, Beyond(beat)), At(x))
         == Pick(fired, At(x)) + Pick(all, At(x))
  {
    var due, later := Pick(all, UpTo(beat)), Pick(all, Beyond(beat));
    PickConcat(fired, due, At(x));
    PickWithin(all, UpTo(beat), x);
    PickWithin(all, Beyond(beat), x);
    JoinEmpty(Pick(fired, At(x)), Pick(due, At(x)), Pick(later, At(x)), Pick(all, At(x)));
  }

  lemma {:induction false} JoinEmpty<T>(a: seq<T>, b: seq<T>, c: seq<T>, d: seq<T>)
    requires (b == d && c == []) || (b == [] && c == d)
    ensures a + b + c == a + d
  {
  }

  lemma {:induction false} TickAt<C, O>(m: Model<C, O>, beat: real, x: real)
    ensures var m' := DoTick(m, beat);
            Pick(m'.fired, At(x)) + Pick(m'.pending, At(x))
            == Pick(m.fired, At(x)) + (Pick(m.pending, At(x)) + Pick(m.staged, At(x)))
  {
    SortCorrect(m.pending + m.staged);
    PickConcat(m.pending, m.staged, At(x));
    SplitAt(m.fired, StableSort(m.pending + m.staged), beat, x);
  }

  lemma {:induction false} DoConserves<C, O>(m: Model<C, O>, a: Action<C, O>)
    requires Conserved(m)
    ensures Conserved(Do(m, a))
  {
    var m' := Do(m, a);
    forall x
      ensures Pick(m'.fired, At(x)) + Pick(m'.pending, At(x)) + Pick(m'.staged, At(x)) == Pick(m'.accepted, At(x))
    {
      match a
      case Push(e) =>
        PickSnoc(m.staged, e, At(x));
        PickSnoc(m.accepted, e, At(x));
        Regroup(Pick(m.fired, At(x)) + Pick(m.pending, At(x)), Pick(m.staged, At(x)), One(e, At(x)));
      case Tick(beat) =>
        TickAt(m, beat, x);
        Regroup(Pick(m.fired, At(x)), Pick(m.pending, At(x)), Pick(m.staged, At(x)));
    }
  }

  /** Exactly-once delivery in order of arrival within each beat, in every run, late events included. */
  lemma {:induction false} RunConserves<C, O>(acts: seq<Action<C, O>>)
    ensures Conserved(Exec(acts))
  {
    if acts != [] {
      RunConserves(acts[..|acts| - 1]);
      DoConserves(Exec(acts[..|acts| - 1]), acts[|acts| - 1]);
    }
  }

  /** As multisets: every accepted push is fired, pending or staged, exactly once. */
  lemma {:induction false} ExactlyOnce<C, O>(acts: seq<Action<C, O>>)
    ensures var m := Exec(acts);
            multiset(m.accepted) == multiset(m.fired) + multiset(m.pending) + multiset(m.staged)
  {
    RunConserves(acts);
    ConservedCounts(Exec(acts));
  }

  lemma {:induction false} ConservedCounts<C, O>(m: Model<C, O>)
    requires Conserved(m)
    ensures multiset(m.accepted) == multiset(m.fired) + multiset(m.pending) + multiset(m.staged)
  {
    forall e ensures multiset(m.accepted)[e] == (multiset(m.fired) + multiset(m.pending) + multiset(m.staged))[e] {
      var q := At(e.beat);
      assert multiset(Pick(m.fired, q) + Pick(m.pending, q) + Pick(m.staged, q))[e] == multiset(Pick(m.accepted, q))[e];
      CountAt(m.accepted, e);
      CountAt(m.fired, e);
      CountAt(m.pending, e);
      CountAt(m.staged, e);
    }
  }

  lemma {:induction false} CountAt<C, O>(s: seq<Event<C, O>>, e: Event<C, O>)
    ensures multiset(s)[e] == multiset(Pick(s, At(e.beat)))[e]
  {
    if s != [] {
      CountAt(s[..|s| - 1], e);
      assert s == s[..|s| - 1] + [s[|s| - 1]];
    }
  }

  /** A tick fires nothing before its beat and leaves nothing that is due. */
  lemma {:induction false} TickFiresExactlyTheDue<C, O>(m: Model<C, O>, beat: real)
    ensures var m' := DoTick(m, beat);
            && (forall e :: e in m'.fired[|m.fired|..] ==> e.beat <= beat)
            && (forall e :: e in m'.pending ==> e.beat > beat)
  {
    var all := StableSort(m.pending + m.staged);
    PickMembers(all, UpTo(beat));
    PickMembers(all, Beyond(beat));
    Suffix(m.fired, Pick(all, UpTo(beat)));
    forall e | e in Pick(all, UpTo(beat)) ensures e.beat <= beat {
      assert Matches(UpTo(beat), e);
    }
    forall e | e in Pick(all, Beyond(beat)) ensures e.beat > beat {
      assert Matches(Beyond(beat), e);
    }
  }

  lemma {:induction false} Suffix<T>(a: seq<T>, b: seq<T>)
    ensures (a + b)[|a|..] == b
  {
  }

  // ---------------------------------------------------------------------------
  // Independence from the tick schedule
  // ---------------------------------------------------------------------------

  function Pushes<C, O>(acts: seq<Action<C, O>>): seq<Event<C, O>> {
    if acts == [] then [] else
    Pushes(acts[..|acts| - 1]) + if acts[|acts| - 1].Push? then [acts[|acts| - 1].e] else []
  }

  /** Ticks never go back in time. */
  ghost predicate TicksOrdered<C, O>(acts: seq<Action<C, O>>) {
    forall i, j :: 0 <= i < j < |acts| && acts[i].Tick? && acts[j].Tick? ==> acts[i].beat <= acts[j].beat
  }

  /** No event is pushed after its beat has passed. */
  ghost predicate Timely<C, O>(acts: seq<Action<C, O>>) {
    forall i, j :: 0 <= i < j < |acts| && acts[i].Tick? && acts[j].Push? ==> acts[i].beat < acts[j].e.beat
  }

  /** The beat of the last tick. */
  function LastTick<C, O>(acts: seq<Action<C, O>>): Option<real> {
    if acts == [] then None
    else if acts[|acts| - 1].Tick? then Some(acts[|acts| - 1].beat)
    else LastTick(acts[..|acts| - 1])
  }

  ghost predicate NotLaterThan<C, O>(s: seq<Event<C, O>>, b: real) { forall e :: e in s ==> e.beat <= b }
  ghost predicate LaterThan<C, O>(s: seq<Event<C, O>>, b: real) { forall e :: e in s ==> e.beat > b }

  lemma {:induction false} SortMembers<C, O>(s: seq<Event<C, O>>)
    ensures forall e :: e in StableSort(s) <==> e in s
  {
    SortCorrect(s);
    forall e ensures e in StableSort(s) <==> e in s {
      PickMembers(s, At(e.beat));
      PickMembers(StableSort(s), At(e.beat));
      assert Pick(StableSort(s), At(e.beat)) == Pick(s, At(e.beat));
      assert Matches(At(e.beat), e);
    }
  }

  lemma {:induction false} RunAccepts<C, O>(acts: seq<Action<C, O>>)
    ensures Exec(acts).accepted == Pushes(acts)
  {
    if acts != [] {
      RunAccepts(acts[..|acts| - 1]);
    }
  }

  /** Before the first tick nothing has been drained. */
  lemma {:induction false} NoTickYet<C, O>(acts: seq<Action<C, O>>)
    requires LastTick(acts).None?
    ensures Exec(acts).fired == [] && Exec(acts).pending == []
  {
    if acts != [] {
      NoTickYet(acts[..|acts| - 1]);
    }
  }

  lemma {:induction false} LastTickIsTick<C, O>(acts: seq<Action<C, O>>)
    requires LastTick(acts).Some?
    ensures Tick(LastTick(acts).value) in acts
  {
    if acts[|acts| - 1].Push? {
      LastTickIsTick(acts[..|acts| - 1]);
    }
  }

  /** With ordered ticks, everything fired is due at the last tick and everything pending is not. */
  lemma {:induction false} RunBounds<C, O>(acts: seq<Action<C, O>>, b: real)
    requires TicksOrdered(acts) && LastTick(acts) == Some(b)
    ensures NotLaterThan(Exec(acts).fired, b) && LaterThan(Exec(acts).pending, b)
  {
    var front, a := acts[..|acts| - 1], acts[|acts| - 1];
    var m := Exec(front);
    if a.Push? {
      RunBounds(front, b);
    } else {
      TickFiresExactlyTheDue(m, b);
      assert DoTick(m, b).fired == m.fired + DoTick(m, b).fired[|m.fired|..];
      if LastTick(front).Some? {
        LastTickIsTick(front);
        RunBounds(front, LastTick(front).value);
      } else {
        NoTickYet(front);
      }
    }
  }

  /** In a timely run what is still staged is later than every tick so far. */
  lemma {:induction false} StagedIsLater<C, O>(acts: seq<Action<C, O>>, b: real)
    requires Timely(acts) && LastTick(acts) == Some(b)
    ensures LaterThan(Exec(acts).staged, b)
  {
    var front, a := acts[..|acts| - 1], acts[|acts| - 1];
    if a.Push? {
      StagedIsLater(front, b);
      LastTickIsTick(front);
      var i :| 0 <= i < |front| && front[i] == Tick(b);
      assert acts[i] == Tick(b) && acts[|acts| - 1] == a;
    }
  }

  lemma {:induction false} SortedAppend<C, O>(s: seq<Event<C, O>>, t: seq<Event<C, O>>, b: real)
    requires Sorted(s) && Sorted(t) && NotLaterThan(s, b) && LaterThan(t, b)
    ensures Sorted(s + t)
  {
    forall i, j | 0 <= i < j < |s + t| ensures (s + t)[i].beat <= (s + t)[j].beat {
      if i < |s| <= j {
        assert s[i] in s && t[j - |s|] in t;
      }
    }
  }

  lemma {:induction false} DueSorted<C, O>(s: seq<Event<C, O>>, b: real)
    requires Sorted(s)
    ensures Sorted(Pick(s, UpTo(b)))
  {
    SortedSplit(s, b);
    var due := Pick(s, UpTo(b));
    forall i, j | 0 <= i < j < |due| ensures due[i].beat <= due[j].beat {
      assert due[i] == s[i] && due[j] == s[j];
    }
  }

  lemma {:induction false} AllLater<C, O>(m: Model<C, O>, beat: real, c: real)
    requires LaterThan(m.pending, c) && LaterThan(m.staged, c)
    ensures LaterThan(Pick(StableSort(m.pending + m.staged), UpTo(beat)), c)
  {
    var all := StableSort(m.pending + m.staged);
    SortMembers(m.pending + m.staged);
    PickMembers(all, UpTo(beat));
    forall e | e in Pick(all, UpTo(beat)) ensures e.beat > c {
      assert Matches(UpTo(beat), e) && e in all;
      assert e in m.pending + m.staged;
    }
  }

  /** In a timely run events fire in beat order across all ticks. */
  lemma {:induction false} FiredSorted<C, O>(acts: seq<Action<C, O>>)
    requires TicksOrdered(acts) && Timely(acts)
    ensures Sorted(Exec(acts).fired)
  {
    if acts != [] {
      var front, a := acts[..|acts| - 1], acts[|acts| - 1];
      FiredSorted(front);
      if a.Tick? {
        var m := Exec(front);
        var all := StableSort(m.pending + m.staged);
        SortCorrect(m.pending + m.staged);
        DueSorted(all, a.beat);
        if LastTick(front).Some? {
          var c := LastTick(front).value;
          RunBounds(front, c);
          StagedIsLater(front, c);
          AllLater(m, a.beat, c);
          SortedAppend(m.fired, Pick(all, UpTo(a.beat)), c);
        } else {
          NoTickYet(front);
          assert m.fired + Pick(all, UpTo(a.beat)) == Pick(all, UpTo(a.beat));
        }
      }
    }
  }

  /**
   Once nothing due is waiting to be drained, what has fired is the due part of the stable sort exactly when it
   is sorted.
   */
  lemma {:induction false} DrainedInOrder<C, O>(acts: seq<Action<C, O>>, b: real)
    requires TicksOrdered(acts) && LastTick(acts) == Some(b) && LaterThan(Exec(acts).staged, b)
    ensures Exec(acts).fired == Pick(StableSort(Pushes(acts)), UpTo(b)) <==> Sorted(Exec(acts).fired)
  {
    RunAccepts(acts);
    var m := Exec(acts);
    var all := StableSort(m.accepted);
    SortCorrect(m.accepted);
    DueSorted(all, b);
    if Sorted(m.fired) {
      forall x ensures Pick(m.fired, At(x)) == Pick(Pick(all, UpTo(b)), At(x)) {
        FiredAtBeat(acts, b, x);
        PickWithin(all, UpTo(b), x);
        assert Pick(all, At(x)) == Pick(m.accepted, At(x));
      }
      SortedUnique(m.fired, Pick(all, UpTo(b)));
    }
  }

  /** An event that is due but not yet drained is missing from what has fired. */
  lemma {:induction false} StagedIsMissing<C, O>(acts: seq<Action<C, O>>, b: real, e: Event<C, O>)
    requires Exec(acts).fired == Pick(StableSort(Pushes(acts)), UpTo(b)) && e in Exec(acts).staged
    ensures e.beat > b
  {
    var m := Exec(acts);
    var x := e.beat;
    RunAccepts(acts);
    RunConserves(acts);
    SortCorrect(m.accepted);
    PickWithin(StableSort(m.accepted), UpTo(b), x);
    PickMembers(m.staged, At(x));
    assert Matches(At(x), e) && e in Pick(m.staged, At(x));
    assert Pick(m.fired, At(x)) + Pick(m.pending, At(x)) + Pick(m.staged, At(x)) == Pick(m.accepted, At(x));
  }

  /**
   In every run with ordered ticks, what has fired by the last tick is the due part of the stable sort of all
   pushes if and only if it fired in beat order and nothing due is still waiting to be drained.
   */
  lemma {:induction false} InOrderExactlyWhenSorted<C, O>(acts: seq<Action<C, O>>, b: real)
    requires TicksOrdered(acts) && LastTick(acts) == Some(b)
    ensures Exec(acts).fired == Pick(StableSort(Pushes(acts)), UpTo(b))
       <==> Sorted(Exec(acts).fired) && LaterThan(Exec(acts).staged, b)
  {
    if Exec(acts).fired == Pick(StableSort(Pushes(acts)), UpTo(b)) {
      forall e | e in Exec(acts).staged ensures e.beat > b {
        StagedIsMissing(acts, b, e);
      }
    }
    if LaterThan(Exec(acts).staged, b) {
      DrainedInOrder(acts, b);
    }
  }

  lemma {:induction false} FiredAtBeat<C, O>(acts: seq<Action<C, O>>, b: real, x: real)
    requires TicksOrdered(acts) && LastTick(acts) == Some(b) && LaterThan(Exec(acts).staged, b)
    ensures Pick(Exec(acts).fired, At(x)) == if x <= b then Pick(Exec(acts).accepted, At(x)) else []
  {
    RunConserves(acts);
    RunBounds(acts, b);
    BoundsAtBeat(Exec(acts), b, x);
  }

  lemma {:induction false} BoundsAtBeat<C, O>(m: Model<C, O>, b: real, x: real)
    requires Conserved(m) && NotLaterThan(m.fired, b) && LaterThan(m.pending, b) && LaterThan(m.staged, b)
    ensures Pick(m.fired, At(x)) == if x <= b then Pick(m.accepted, At(x)) else []
  {
    if x <= b {
      PickVoid(m.pending, At(x));
      PickVoid(m.staged, At(x));
      assert Pick(m.fired, At(x)) + Pick(m.pending, At(x)) + Pick(m.staged, At(x)) == Pick(m.accepted, At(x));
    } else {
      PickVoid(m.fired, At(x));
    }
  }

  /** In a timely run, everything fired up to beat `b` is the due part of the stable sort of the whole push sequence. */
  lemma {:induction false} FiredInBeatOrder<C, O>(acts: seq<Action<C, O>>, b: real)
    requires TicksOrdered(acts) && Timely(acts) && LastTick(acts) == Some(b)
    ensures Exec(acts).fired == Pick(StableSort(Pushes(acts)), UpTo(b))
  {
    FiredSorted(acts);
    StagedIsLater(acts, b);
    InOrderExactlyWhenSorted(acts, b);
  }

  /** So what has fired by beat `b` does not depend on how often, or when, the ticks before it came. */
  lemma {:induction false} TickScheduleIndependence<C, O>(a1: seq<Action<C, O>>, a2: seq<Action<C, O>>, b: real)
    requires TicksOrdered(a1) && Timely(a1) && LastTick(a1) == Some(b)
    requires TicksOrdered(a2) && Timely(a2) && LastTick(a2) == Some(b)
    requires Pushes(a1) == Pushes(a2)
    ensures Exec(a1).fired == Exec(a2).fired
  {
    FiredInBeatOrder(a1, b);
    FiredInBeatOrder(a2, b);
  }

  ghost predicate NotBehind<C, O>(fired: seq<Event<C, O>>, s: seq<Event<C, O>>) {
    forall f, e :: f in fired && e in s ==> f.beat <= e.beat
  }

  /** At no tick is an event waiting to be drained behind one that has already fired. */
  ghost predicate NoneBehind<C, O>(acts: seq<Action<C, O>>) {
    acts == [] ||
    var front, a := acts[..|acts| - 1], acts[|acts| - 1];
    NoneBehind(front) && (a.Tick? ==> NotBehind(Exec(front).fired, Exec(front).staged))
  }

  lemma {:induction false} SortedAppendIff<C, O>(s: seq<Event<C, O>>, t: seq<Event<C, O>>)
    requires Sorted(t)
    ensures Sorted(s + t) <==> Sorted(s) && NotBehind(s, t)
  {
    var all := s + t;
    if Sorted(all) {
      forall i, j | 0 <= i < j < |s| ensures s[i].beat <= s[j].beat {
        assert all[i] == s[i] && all[j] == s[j];
      }
      forall f, e | f in s && e in t ensures f.beat <= e.beat {
        var i, j :| 0 <= i < |s| && s[i] == f && 0 <= j < |t| && t[j] == e;
        assert all[i] == f && all[|s| + j] == e;
      }
    }
    if Sorted(s) && NotBehind(s, t) {
      forall i, j | 0 <= i < j < |all| ensures all[i].beat <= all[j].beat {
        if i < |s| <= j {
          assert s[i] in s && t[j - |s|] in t;
        }
      }
    }
  }

  lemma {:induction false} DueMember<C, O>(s: seq<Event<C, O>>, beat: real, e: Event<C, O>)
    ensures e in Pick(StableSort(s), UpTo(beat)) <==> e in s && e.beat <= beat
  {
    SortMembers(s);
    PickMembers(StableSort(s), UpTo(beat));
    assert Matches(UpTo(beat), e) <==> e.beat <= beat;
  }

  /** Among the events due at a tick only those just drained can be behind. */
  lemma {:induction false} DueBehind<C, O>(m: Model<C, O>, due: seq<Event<C, O>>, beat: real, c: real)
    requires NotLaterThan(m.fired, c) && LaterThan(m.pending, c) && c <= beat
    requires forall e :: e in due <==> e in m.pending + m.staged && e.beat <= beat
    ensures NotBehind(m.fired, due) <==> NotBehind(m.fired, m.staged)
  {
    forall f, e | NotBehind(m.fired, due) && f in m.fired && e in m.staged ensures f.beat <= e.beat {
      if e.beat <= beat {
        assert e in m.pending + m.staged;
      }
    }
    forall f, e | NotBehind(m.fired, m.staged) && f in m.fired && e in due ensures f.beat <= e.beat {
      assert e in m.pending || e in m.staged;
    }
  }

  /** With ordered ticks, events fire in beat order exactly when none is ever drained behind one that has fired. */
  lemma {:induction false} SortedExactlyWhenNoneBehind<C, O>(acts: seq<Action<C, O>>)
    requires TicksOrdered(acts)
    ensures Sorted(Exec(acts).fired) <==> NoneBehind(acts)
  {
    if acts != [] {
      var front, a := acts[..|acts| - 1], acts[|acts| - 1];
      SortedExactlyWhenNoneBehind(front);
      if a.Tick? {
        var m := Exec(front);
        var all := StableSort(m.pending + m.staged);
        SortCorrect(m.pending + m.staged);
        DueSorted(all, a.beat);
        SortedAppendIff(m.fired, Pick(all, UpTo(a.beat)));
        if LastTick(front).Some? {
          LastTickIsTick(front);
          RunBounds(front, LastTick(front).value);
          forall e ensures e in Pick(all, UpTo(a.beat)) <==> e in m.pending + m.staged && e.beat <= a.beat {
            DueMember(m.pending + m.staged, a.beat, e);
          }
          DueBehind(m, Pick(all, UpTo(a.beat)), a.beat, LastTick(front).value);
        } else {
          NoTickYet(front);
        }
      }
    }
  }

  /**
   In every run with ordered ticks, what has fired by the last tick is the due part of the stable sort of all
   pushes if and only if no event was ever drained behind one that had fired and nothing due is still waiting.
   */
  lemma {:induction false} InOrderExactlyWhenNoneBehind<C, O>(acts: seq<Action<C, O>>, b: real)
    requires TicksOrdered(acts) && LastTick(acts) == Some(b)
    ensures Exec(acts).fired == Pick(StableSort(Pushes(acts)), UpTo(b))
       <==> NoneBehind(acts) && LaterThan(Exec(acts).staged, b)
  {
    InOrderExactlyWhenSorted(acts, b);
    SortedExactlyWhenNoneBehind(acts);
  }

  /** In any run, an event pushed after a later beat has fired is delivered on the next tick, out of beat order. */
  lemma {:induction false} LateEventBreaksOrder<C, O>(
    acts: seq<Action<C, O>>, f: Event<C, O>, e: Event<C, O>, b: real, longer: seq<Action<C, O>>)
    requires longer == acts + [Push(e), Tick(b)] && TicksOrdered(longer)
    requires f in Exec(acts).fired && e.beat < f.beat <= b
    ensures e in Exec(longer).fired && !Sorted(Exec(longer).fired)
  {
    var pushed := acts + [Push(e)];
    assert pushed[..|acts|] == acts && longer[..|acts| + 1] == pushed && longer[|acts| + 1] == Tick(b);
    var m := Exec(pushed);
    assert e in m.staged && f in m.fired && e in m.pending + m.staged;
    DueMember(m.pending + m.staged, b, e);
    assert !NotBehind(m.fired, m.staged);
    SortedExactlyWhenNoneBehind(longer);
  }

  /** Such a run: f is pushed and fires at beat b, then e, with an earlier beat, is pushed and fires after it. */
  lemma {:induction false} LateRun<C, O>(f: Event<C, O>, e: Event<C, O>, b: real)
    requires e.beat < f.beat <= b
    ensures var acts := [Push(f), Tick(b)];
            && Exec(acts).fired == [f]
            && TicksOrdered(acts + [Push(e), Tick(b)]) && !Sorted(Exec(acts + [Push(e), Tick(b)]).fired)
  {
    FirstFires(f, b);
    var acts, longer := [Push(f), Tick(b)], [Push(f), Tick(b)] + [Push(e), Tick(b)];
    TicksAlike(longer, b);
    LateEventBreaksOrder(acts, f, e, b, longer);
  }

  lemma {:induction false} TicksAlike<C, O>(acts: seq<Action<C, O>>, b: real)
    requires forall a :: a in acts && a.Tick? ==> a.beat == b
    ensures TicksOrdered(acts)
  {
  }

  lemma {:induction false} FirstFires<C, O>(f: Event<C, O>, b: real)
    requires f.beat <= b
    ensures Exec([Push(f), Tick(b)]).fired == [f]
  {
    var none: seq<Action<C, O>> := [];
    var pushed, acts := [Push(f)], [Push(f), Tick(b)];
    assert pushed[..0] == none && acts[..1] == pushed;
    assert Exec(pushed) == Model([], [], [] + [f], [] + [f]);
    SingleTick(Exec(pushed), f, b);
    assert [] + [f] == [f];
  }

  lemma {:induction false} NoneDue<C, O>(pending: seq<Event<C, O>>, beat: real)
    requires pending == []
    ensures Pick(StableSort(pending), UpTo(beat)) == [] && Pick(StableSort(pending), Beyond(beat)) == []
  {
  }

  lemma {:induction false} SingleTick<C, O>(m: Model<C, O>, e: Event<C, O>, beat: real)
    requires m.pending == [] && m.staged == [e] && e.beat <= beat
    ensures DoTick(m, beat) == m.(fired := m.fired + [e], staged := [])
  {
    assert [] + [e] == [e] && [e][..0] == [];
    assert StableSort([e]) == [e];
    assert Pick([e], UpTo(beat)) == [e] && Pick([e], Beyond(beat)) == [];
  }

  // ---------------------------------------------------------------------------
  // The scheduler object
  // ---------------------------------------------------------------------------

  function ClapsOf<C, O>(s: seq<Event<C, O>>): seq<C> {
    if s == [] then [] else ClapsOf(s[..|s| - 1]) + if s[|s| - 1].Clap? then [s[|s| - 1].event] else []
  }

  function OscsOf<C, O>(s: seq<Event<C, O>>): seq<O> {
    if s == [] then [] else OscsOf(s[..|s| - 1]) + if s[|s| - 1].Osc? then [s[|s| - 1].osc] else []
  }

  /** What a queue with `room` free places keeps of the items offered to it in turn. */
  function Kept<T>(items: seq<T>, room: int): seq<T> {
    if room <= 0 then [] else if room < |items| then items[..room] else items
  }

  /** An OSC queue of the given capacity after the OSC events of `due` were offered to it. */
  function Routed<C, O>(before: seq<O>, due: seq<Event<C, O>>, capacity: nat): seq<O> {
    before + Kept(OscsOf(due), capacity - 1 - |before|)
  }

  lemma {:induction false} RoutedNone<C, O>(before: seq<O>, due: seq<Event<C, O>>, capacity: nat)
    requires due == []
    ensures Routed(before, due, capacity) == before
  {
  }

  /** The queue after one event was offered to it. */
  function Offered<C, O>(q: seq<O>, e: Event<C, O>, capacity: nat): seq<O> {
    if e.Osc? && |q| < capacity - 1 then q + [e.osc] else q
  }

  /** Offering one more event: an OSC event joins the queue if there is room, a CLAP event is delivered. */
  lemma {:induction false} OneMore<C, O>(before: seq<O>, all: seq<Event<C, O>>, n: nat, capacity: nat)
    requires n < |all| && |before| < capacity
    ensures var q := Routed(before, all[..n], capacity);
            Routed(before, all[..n + 1], capacity) == Offered(q, all[n], capacity)
    ensures ClapsOf(all[..n + 1]) == if all[n].Clap? then ClapsOf(all[..n]) + [all[n].event] else ClapsOf(all[..n])
  {
    assert all[..n + 1][..n] == all[..n];
  }

  class Scheduler<C(0), O(0)> {
    const staging: RingBuffer<Event<C, O>>
    const oscOut: RingBuffer?<O>
    var pending: seq<Event<C, O>>
    ghost var fired: seq<Event<C, O>>
    ghost var accepted: seq<Event<C, O>>

    ghost predicate Valid()
      reads this, staging, staging.slots, oscOut, if oscOut == null then {} else {oscOut.slots}
    {
      && staging.Valid()
      && (oscOut != null ==>
            && oscOut.Valid() && oscOut as object != staging
            && oscOut.slots as object != staging.slots)
    }

    ghost function State(): Model<C, O>
      reads this, staging
    {
      Model(fired, pending, staging.contents, accepted)
    }

    constructor (oscOut: RingBuffer?<O>)
      requires oscOut != null ==> oscOut.Valid()
      ensures Valid() && this.oscOut == oscOut && fresh(staging) && fresh(staging.slots)
      ensures State() == Exec([]) && staging.slots.Length == 1024
    {
      this.oscOut := oscOut;
      var q := new RingBuffer<Event<C, O>>(1024);
      this.staging := q;
      pending, fired, accepted := [], [], [];
    }

    /** A push onto the staging queue, as the control thread makes it. */
    method Stage(e: Event<C, O>) returns (ok: bool)
      requires Valid()
      modifies this`accepted, staging, staging.slots
      ensures Valid()
      ensures ok == (|old(staging.contents)| < staging.slots.Length - 1)
      ensures State() == if ok then DoPush(old(State()), e) else old(State())
    {
      ok := staging.Push(e);
      if ok {
        accepted := accepted + [e];
      }
    }

    method Drain()
      requires Valid()
      modifies this`pending, staging, staging.slots
      ensures Valid()
      ensures pending == old(pending) + old(staging.contents) && staging.contents == []
    {
      var ok, e := staging.Pop();
      while ok
        invariant Valid()
        invariant pending + (if ok then [e] else []) + staging.contents == old(pending) + old(staging.contents)
        invariant !ok ==> staging.contents == []
        decreases ok, |staging.contents|
      {
        ghost var rest := staging.contents;
        pending := pending + [e];
        ok, e := staging.Pop();
        assert ok ==> rest == [e] + staging.contents;
      }
    }

    /** Fires one event: an OSC event is offered to the queue, a CLAP event goes to the callback. */
    method Route(e: Event<C, O>) returns (called: seq<C>)
      requires Valid()
      modifies oscOut, if oscOut == null then {} else {oscOut.slots}
      ensures Valid() && staging.contents == old(staging.contents)
      ensures called == if e.Clap? then [e.event] else []
      ensures oscOut != null ==> oscOut.contents == Offered(old(oscOut.contents), e, oscOut.slots.Length)
    {
      called := [];
      if e.Osc? {
        if oscOut != null {
          var _ := oscOut.Push(e.osc);
        }
      } else {
        called := [e.event];
      }
    }

    /** Fires a prefix of `all`, the events that are due; returns its length and the callback calls. */
    method FireDue(all: seq<Event<C, O>>, currentBeat: real) returns (n: nat, delivered: seq<C>)
      requires Valid() && Sorted(all)
      modifies oscOut, if oscOut == null then {} else {oscOut.slots}
      ensures Valid() && staging.contents == old(staging.contents)
      ensures n <= |all| && all[..n] == Pick(all, UpTo(currentBeat)) && all[n..] == Pick(all, Beyond(currentBeat))
      ensures delivered == ClapsOf(all[..n])
      ensures oscOut != null ==> oscOut.contents == Routed(old(oscOut.contents), all[..n], oscOut.slots.Length)
    {
      n, delivered := 0, [];
      ghost var before := if oscOut == null then [] else oscOut.contents;
      ghost var room := if oscOut == null then 2 else oscOut.slots.Length;
      while n < |all| && all[n].beat <= currentBeat
        invariant n <= |all| && Valid() && staging.contents == old(staging.contents)
        invariant forall k :: 0 <= k < n ==> all[k].beat <= currentBeat
        invariant delivered == ClapsOf(all[..n])
        invariant oscOut != null ==> oscOut.contents == Routed(old(oscOut.contents), all[..n], oscOut.slots.Length)
      {
        OneMore(before, all, n, room);
        var called := Route(all[n]);
        delivered := delivered + called;
        n := n + 1;
      }
      DueIsPrefix(all, n, currentBeat);
    }

    /** Sorts the pending events, fires those that are due and erases them. */
    method SortAndFire(currentBeat: real) returns (delivered: seq<C>)
      requires Valid()
      modifies this`pending, this`fired, oscOut, if oscOut == null then {} else {oscOut.slots}
      ensures Valid() && staging.contents == old(staging.contents)
      ensures pending == Pick(StableSort(old(pending)), Beyond(currentBeat))
      ensures var due := Pick(StableSort(old(pending)), UpTo(currentBeat));
              && fired == old(fired) + due && delivered == ClapsOf(due)
              && (oscOut != null ==> oscOut.contents == Routed(old(oscOut.contents), due, oscOut.slots.Length))
    {
      SortCorrect(pending);
      pending := StableSort(pending);
      var n;
      n, delivered := FireDue(pending, currentBeat);
      fired := fired + pending[..n];
      pending := pending[n..];
    }

    /** Nothing is sorted if there is nothing to sort. */
    method FireIfAny(currentBeat: real) returns (delivered: seq<C>)
      requires Valid()
      modifies this`pending, this`fired, oscOut, if oscOut == null then {} else {oscOut.slots}
      ensures Valid() && staging.contents == old(staging.contents)
      ensures pending == Pick(StableSort(old(pending)), Beyond(currentBeat))
      ensures var due := Pick(StableSort(old(pending)), UpTo(currentBeat));
              && fired == old(fired) + due && delivered == ClapsOf(due)
              && (oscOut != null ==> oscOut.contents == Routed(old(oscOut.contents), due, oscOut.slots.Length))
    {
      if pending == [] {
        NoneDue<C, O>(pending, currentBeat);
        assert fired == fired + [];
        if oscOut != null {
          RoutedNone<C, O>(oscOut.contents, [], oscOut.slots.Length);
        }
        return [];
      }
      delivered := SortAndFire(currentBeat);
    }

    /**
     One tick.  `delivered` are the callback calls: the CLAP events among those fired, in firing order.
     The OSC events go to oscOut in firing order for as long as it has room; without a queue, or once it is full,
     they are dropped.
     */
    method Tick(currentBeat: real) returns (delivered: seq<C>)
      requires Valid()
      modifies this`pending, this`fired, staging, staging.slots, oscOut, if oscOut == null then {} else {oscOut.slots}
      ensures Valid()
      ensures State() == DoTick(old(State()), currentBeat)
      ensures delivered == ClapsOf(fired[|old(fired)|..])
      ensures oscOut != null ==>
                oscOut.contents == Routed(old(oscOut.contents), fired[|old(fired)|..], oscOut.slots.Length)
    {
      ghost var m := State();
      Drain();
      delivered := FireIfAny(currentBeat);
      Suffix(m.fired, Pick(StableSort(m.pending + m.staged), UpTo(currentBeat)));
    }
  }
}
