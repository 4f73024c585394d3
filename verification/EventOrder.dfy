/**
 When the event scheduler delivers in beat order, told from its callers' actions alone: which pushes and ticks were
 made, and in which order.
 */
module EventOrder {
  import opened Basics
  import opened EventScheduler

  predicate PushAt<C(==), O(==)>(acts: seq<Action<C, O>>, k: nat, e: Event<C, O>) {
    k < |acts| && acts[k] == Push(e)
  }

  /** No tick has come since action `k`. */
  ghost predicate SinceLastTick<C, O>(acts: seq<Action<C, O>>, k: nat) {
    forall l :: k < l < |acts| ==> acts[l].Push?
  }

  /** The event pushed at `i` is due at the tick `j` after it. */
  predicate DueAt<C, O>(acts: seq<Action<C, O>>, i: nat, j: nat) {
    i < j < |acts| && acts[i].Push? && acts[j].Tick? && acts[i].e.beat <= acts[j].beat
  }

  /** The event pushed at `k` has an earlier beat than one pushed at `i` and due at a tick `j` before `k`. */
  predicate Late<C, O>(acts: seq<Action<C, O>>, i: nat, j: nat, k: nat) {
    DueAt(acts, i, j) && j < k < |acts| && acts[k].Push? && acts[k].e.beat < acts[i].e.beat
  }

  /** No event is pushed late and then drained by a tick. */
  ghost predicate NoneLate<C, O>(acts: seq<Action<C, O>>) {
    forall i: nat, j: nat, k: nat :: Late(acts, i, j, k) ==> SinceLastTick(acts, k)
  }

  /** No push since the last tick is late. */
  ghost predicate NoneLateStaged<C, O>(acts: seq<Action<C, O>>) {
    forall i: nat, j: nat, k: nat :: Late(acts, i, j, k) ==> !SinceLastTick(acts, k)
  }

  /** Every push that no tick has drained is for after beat `b`. */
  ghost predicate RestLater<C, O>(acts: seq<Action<C, O>>, b: real) {
    forall k: nat :: k < |acts| && acts[k].Push? && SinceLastTick(acts, k) ==> acts[k].e.beat > b
  }

  // ---------------------------------------------------------------------------
  // Which actions put an event where
  // ---------------------------------------------------------------------------

  ghost predicate Staged<C, O>(acts: seq<Action<C, O>>, e: Event<C, O>) {
    exists k: nat :: PushAt(acts, k, e) && SinceLastTick(acts, k)
  }

  ghost predicate Pushed<C, O>(acts: seq<Action<C, O>>, e: Event<C, O>) { exists k: nat :: PushAt(acts, k, e) }

  ghost predicate Fired<C, O>(acts: seq<Action<C, O>>, e: Event<C, O>) {
    exists i: nat, j: nat :: PushAt(acts, i, e) && DueAt(acts, i, j)
  }

  /** What was staged before the last action still is if that is a push, and then so is its event. */
  lemma {:induction false} StagedBefore<C, O>(acts: seq<Action<C, O>>, e: Event<C, O>)
    requires acts != []
    ensures var n := |acts| - 1;
            Staged(acts, e) <==> acts[n].Push? && (Staged(acts[..n], e) || acts[n].e == e)
  {
    var n := |acts| - 1;
    var front := acts[..n];
    if Staged(acts, e) {
      var k: nat :| PushAt(acts, k, e) && SinceLastTick(acts, k);
      assert k < n ==> acts[n].Push? && PushAt(front, k, e) && SinceLastTick(front, k);
    }
    if acts[n].Push? && Staged(front, e) {
      var k: nat :| PushAt(front, k, e) && SinceLastTick(front, k);
      assert PushAt(acts, k, e) && SinceLastTick(acts, k);
    }
    if acts[n].Push? && acts[n].e == e {
      assert PushAt(acts, n, e) && SinceLastTick(acts, n);
    }
  }

  /** An event is waiting to be drained exactly when it was pushed since the last tick. */
  lemma {:induction false} StagedMembers<C, O>(acts: seq<Action<C, O>>, e: Event<C, O>)
    ensures e in Exec(acts).staged <==> Staged(acts, e)
  {
    if acts != [] {
      StagedMembers(acts[..|acts| - 1], e);
      StagedBefore(acts, e);
    }
  }

  lemma {:induction false} PushedMembers<C, O>(acts: seq<Action<C, O>>, e: Event<C, O>)
    ensures e in Pushes(acts) <==> Pushed(acts, e)
  {
    if acts != [] {
      var n := |acts| - 1;
      PushedMembers(acts[..n], e);
      if Pushed(acts[..n], e) {
        var k: nat :| PushAt(acts[..n], k, e);
        assert PushAt(acts, k, e);
      }
      if acts[n] == Push(e) {
        assert PushAt(acts, n, e);
      }
      if Pushed(acts, e) {
        var k: nat :| PushAt(acts, k, e);
        assert k < n ==> PushAt(acts[..n], k, e);
      }
    }
  }

  /** Whatever was pushed is fired, pending or staged. */
  lemma {:induction false} PushedSomewhere<C, O>(acts: seq<Action<C, O>>, e: Event<C, O>)
    ensures var m := Exec(acts); Pushed(acts, e) <==> e in m.fired || e in m.pending || e in m.staged
  {
    var m := Exec(acts);
    RunAccepts(acts);
    ExactlyOnce(acts);
    PushedMembers(acts, e);
    assert e in m.accepted <==> multiset(m.accepted)[e] > 0;
  }

  /** An event has fired exactly when a tick came after its push at which it was due. */
  lemma {:induction false} FiredMembers<C, O>(acts: seq<Action<C, O>>, e: Event<C, O>)
    ensures e in Exec(acts).fired <==> Fired(acts, e)
  {
    if acts != [] {
      var n := |acts| - 1;
      var front, m := acts[..n], Exec(acts[..n]);
      FiredMembers(front, e);
      FiredBefore(acts, e);
      if acts[n].Tick? {
        PushedSomewhere(front, e);
        DueMember(m.pending + m.staged, acts[n].beat, e);
        FiredNow(acts, e);
      }
    }
  }

  ghost predicate FiredAt<C, O>(acts: seq<Action<C, O>>, e: Event<C, O>, j: nat) {
    exists i: nat :: PushAt(acts, i, e) && DueAt(acts, i, j)
  }

  /** What had fired before the last action, and what fires with it. */
  lemma {:induction false} FiredBefore<C, O>(acts: seq<Action<C, O>>, e: Event<C, O>)
    requires acts != []
    ensures Fired(acts, e) <==> Fired(acts[..|acts| - 1], e) || FiredAt(acts, e, |acts| - 1)
  {
    var n := |acts| - 1;
    if Fired(acts, e) {
      var i: nat, j: nat :| PushAt(acts, i, e) && DueAt(acts, i, j);
      if j < n {
        assert PushAt(acts[..n], i, e) && DueAt(acts[..n], i, j);
      }
    }
    if Fired(acts[..n], e) {
      var i: nat, j: nat :| PushAt(acts[..n], i, e) && DueAt(acts[..n], i, j);
      assert PushAt(acts, i, e) && DueAt(acts, i, j);
    }
  }

  lemma {:induction false} FiredNow<C, O>(acts: seq<Action<C, O>>, e: Event<C, O>)
    requires acts != [] && acts[|acts| - 1].Tick?
    ensures FiredAt(acts, e, |acts| - 1) <==> Pushed(acts[..|acts| - 1], e) && e.beat <= acts[|acts| - 1].beat
  {
    var n := |acts| - 1;
    if FiredAt(acts, e, n) {
      var i: nat :| PushAt(acts, i, e) && DueAt(acts, i, n);
      assert PushAt(acts[..n], i, e);
    }
    if Pushed(acts[..n], e) && e.beat <= acts[n].beat {
      var i: nat :| PushAt(acts[..n], i, e);
      assert PushAt(acts, i, e) && DueAt(acts, i, n);
    }
  }

  // ---------------------------------------------------------------------------
  // Beat order
  // ---------------------------------------------------------------------------

  /** A tick drains nothing behind an event that has fired exactly when no push since the last tick is late. */
  lemma {:induction false} DrainsNoneLate<C, O>(acts: seq<Action<C, O>>)
    ensures NotBehind(Exec(acts).fired, Exec(acts).staged) <==> NoneLateStaged(acts)
  {
    var m := Exec(acts);
    if NotBehind(m.fired, m.staged) {
      forall i: nat, j: nat, k: nat | Late(acts, i, j, k) ensures !SinceLastTick(acts, k) {
        var f, e := acts[i].e, acts[k].e;
        assert PushAt(acts, i, f) && PushAt(acts, k, e);
        FiredMembers(acts, f);
        StagedMembers(acts, e);
      }
    }
    if !NotBehind(m.fired, m.staged) {
      var f, e :| f in m.fired && e in m.staged && !(f.beat <= e.beat);
      FiredMembers(acts, f);
      StagedMembers(acts, e);
      var i: nat, j: nat :| PushAt(acts, i, f) && DueAt(acts, i, j);
      var k: nat :| PushAt(acts, k, e) && SinceLastTick(acts, k);
      assert Late(acts, i, j, k);
    }
  }

  /** The scheduler never drains an event behind one that has fired if and only if no late event is ticked. */
  lemma {:induction false} NoneBehindExactlyWhenNoneLate<C, O>(acts: seq<Action<C, O>>)
    ensures NoneBehind(acts) <==> NoneLate(acts)
  {
    if acts != [] {
      var n := |acts| - 1;
      NoneBehindExactlyWhenNoneLate(acts[..n]);
      DrainsNoneLate(acts[..n]);
      LateBefore(acts);
    }
  }

  /** The last action adds lateness only by being a tick. */
  lemma {:induction false} LateBefore<C, O>(acts: seq<Action<C, O>>)
    requires acts != []
    ensures var front := acts[..|acts| - 1];
            NoneLate(acts) <==> NoneLate(front) && (acts[|acts| - 1].Tick? ==> NoneLateStaged(front))
  {
    var n := |acts| - 1;
    var front := acts[..n];
    assert forall i: nat, j: nat, k: nat :: Late(front, i, j, k) <==> Late(acts, i, j, k) && k < n;
    forall k: nat | k < n ensures SinceLastTick(acts, k) <==> SinceLastTick(front, k) && acts[n].Push? {
      assert SinceLastTick(acts, k) ==> SinceLastTick(front, k);
    }
    assert SinceLastTick(acts, n);
  }

  lemma {:induction false} RestIsStaged<C, O>(acts: seq<Action<C, O>>, b: real)
    ensures LaterThan(Exec(acts).staged, b) <==> RestLater(acts, b)
  {
    if LaterThan(Exec(acts).staged, b) {
      forall k: nat | k < |acts| && acts[k].Push? && SinceLastTick(acts, k) ensures acts[k].e.beat > b {
        assert PushAt(acts, k, acts[k].e);
        StagedMembers(acts, acts[k].e);
      }
    }
    if RestLater(acts, b) {
      forall e | e in Exec(acts).staged ensures e.beat > b {
        StagedMembers(acts, e);
      }
    }
  }

  /** With ordered ticks, events fire in beat order across all ticks if and only if no late event is ticked. */
  lemma {:induction false} SortedExactlyWhenNoneLate<C, O>(acts: seq<Action<C, O>>)
    requires TicksOrdered(acts)
    ensures Sorted(Exec(acts).fired) <==> NoneLate(acts)
  {
    SortedExactlyWhenNoneBehind(acts);
    NoneBehindExactlyWhenNoneLate(acts);
  }

  /**
   With ordered ticks, what has fired by the last tick is the due part of the stable sort of all pushes if and only
   if no late event is ticked and every push since that tick is for later.
   */
  lemma {:induction false} InOrderExactlyWhenNoneLate<C, O>(acts: seq<Action<C, O>>, b: real)
    requires TicksOrdered(acts) && LastTick(acts) == Some(b)
    ensures Exec(acts).fired == Pick(StableSort(Pushes(acts)), UpTo(b)) <==> NoneLate(acts) && RestLater(acts, b)
  {
    InOrderExactlyWhenNoneBehind(acts, b);
    NoneBehindExactlyWhenNoneLate(acts);
    RestIsStaged(acts, b);
  }
}
