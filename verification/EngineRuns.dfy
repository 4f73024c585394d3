/**
 Whole runs of the modulator engine: what a modulator sees of another's output, and exactly when that is the
 output of the previous tick.
 */
module EngineRuns {
  import opened Basics
  import opened ModulatorEngine

  /** The table after a run of calls on a new engine. */
  function Exec<M, D, V, O>(b: Behaviour<M, D, V, O>, calls: seq<Call<M, D, V>>): Table<M, O> {
    if calls == [] then Table(map[], [], []) else Do(b, Exec(b, calls[..|calls| - 1]), calls[|calls| - 1])
  }

  lemma {:induction false} ExecOne<M, D, V, O>(
    b: Behaviour<M, D, V, O>, calls: seq<Call<M, D, V>>, c: Call<M, D, V>)
    ensures Exec(b, calls + [c]) == Do(b, Exec<M, D, V, O>(b, calls), c)
  {
    assert (calls + [c])[..|calls|] == calls;
  }

  lemma {:induction false} ExecKeepsWf<M, D, V, O>(b: Behaviour<M, D, V, O>, calls: seq<Call<M, D, V>>)
    ensures Wf<M, O>(Exec(b, calls))
  {
    if calls != [] {
      ExecKeepsWf(b, calls[..|calls| - 1]);
      DoKeepsWf(b, Exec(b, calls[..|calls| - 1]), calls[|calls| - 1]);
    }
  }

  /** The outputs that the modulator in position `i` can look up during a tick. */
  function Seen<M, D, V, O>(b: Behaviour<M, D, V, O>, t: Table<M, O>, beat: D, rate: V, i: nat): map<string, O>
    requires i <= |t.order|
  {
    After(Outputs(t), RunTo(b, t, beat, rate, i).calls)
  }

  // ---------------------------------------------------------------------------
  // Which record is read
  // ---------------------------------------------------------------------------

  /** The place in the log of the record that is read, or -1 if there is none. */
  function LatestAt<O>(log: seq<Record<O>>, id: string): int {
    if log == [] then -1 else if log[|log| - 1].id == id then |log| - 1 else LatestAt(log[..|log| - 1], id)
  }

  lemma {:induction false} LatestIsAt<O>(log: seq<Record<O>>, id: string)
    ensures var k := LatestAt(log, id);
            && -1 <= k < |log| && (k >= 0 ==> log[k].id == id)
            && Latest(log, id) == if k < 0 then None else Some(log[k].out)
  {
    if log != [] {
      LatestIsAt(log[..|log| - 1], id);
    }
  }

  predicate Recorded<O>(calls: seq<Record<O>>, id: string) { exists j :: 0 <= j < |calls| && calls[j].id == id }

  /**
   The record read is one of the last few if and only if the id is among them; otherwise it is the one read
   before them.
   */
  lemma {:induction false} LatestAmong<O>(older: seq<Record<O>>, calls: seq<Record<O>>, id: string)
    ensures LatestAt(older + calls, id) >= |older| <==> Recorded(calls, id)
    ensures !Recorded(calls, id) ==>
              LatestAt(older + calls, id) == LatestAt(older, id) && Latest(older + calls, id) == Latest(older, id)
    ensures Recorded(calls, id) ==> Latest(older + calls, id) == Latest(calls, id)
    decreases |calls|
  {
    if calls == [] {
      assert older + calls == older;
      LatestIsAt(older, id);
    } else {
      var n := |calls| - 1;
      assert (older + calls)[..|older| + n] == older + calls[..n];
      LatestAmong(older, calls[..n], id);
      assert Recorded(calls, id) <==> calls[n].id == id || Recorded(calls[..n], id) by {
        assert calls == calls[..n] + [calls[n]];
      }
    }
  }

  /** With distinct ids, the only record of an id is the latest. */
  lemma {:induction false} LatestOfDistinct<O>(calls: seq<Record<O>>, j: nat)
    requires j < |calls| && forall k :: j < k < |calls| ==> calls[k].id != calls[j].id
    ensures Latest(calls, calls[j].id) == Some(calls[j].out)
  {
    if j < |calls| - 1 {
      LatestOfDistinct(calls[..|calls| - 1], j);
    }
  }

  // ---------------------------------------------------------------------------
  // One tick
  // ---------------------------------------------------------------------------

  /** A tick records the ids of the order, each once. */
  lemma {:induction false} TickRecordsOrder<M, D, V, O>(
    b: Behaviour<M, D, V, O>, t: Table<M, O>, beat: D, rate: V, n: nat)
    requires Wf(t) && n <= |t.order|
    ensures var calls := RunTo(b, t, beat, rate, n).calls;
            |calls| == n && forall i :: 0 <= i < n ==> calls[i].id == t.order[i]
  {
    RunToRan(b, t, beat, rate, n);
    var p := RunTo(b, t, beat, rate, n);
    forall i | 0 <= i < n ensures p.calls[i].id == t.order[i] {
      assert RanAt(b, t, Outputs(t), beat, rate, p, i);
    }
  }

  /** What a tick has recorded so far it keeps. */
  lemma {:induction false} RunToGrows<M, D, V, O>(
    b: Behaviour<M, D, V, O>, t: Table<M, O>, beat: D, rate: V, i: nat, n: nat)
    requires i <= n <= |t.order|
    ensures RunTo(b, t, beat, rate, i).calls <= RunTo(b, t, beat, rate, n).calls
  {
    if i < n {
      RunToGrows(b, t, beat, rate, i, n - 1);
    }
  }

  /**
   While a tick is under way the modulator in position `i` sees this tick's output of a source ahead of it, and
   what was recorded before this tick of any other, itself included.
   */
  lemma {:induction false} SeenDuringTick<M, D, V, O>(
    b: Behaviour<M, D, V, O>, t: Table<M, O>, beat: D, rate: V, i: nat, x: string)
    requires Wf(t) && i < |t.order|
    ensures forall j :: 0 <= j < i && t.order[j] == x ==>
              var calls := RunTo(b, t, beat, rate, |t.order|).calls;
              j < |calls| && Lookup(Seen(b, t, beat, rate, i), x) == Some(calls[j].out)
    ensures x !in t.order[..i] ==> Lookup(Seen(b, t, beat, rate, i), x) == Latest(Flatten(t.ticks), x)
  {
    var log, calls := Flatten(t.ticks), RunTo(b, t, beat, rate, i).calls;
    TickRecordsOrder(b, t, beat, rate, i);
    TickRecordsOrder(b, t, beat, rate, |t.order|);
    RunToGrows(b, t, beat, rate, i, |t.order|);
    AfterConcat(map[], log, calls);
    AfterAgrees(log + calls, x);
    LatestAmong(log, calls, x);
    forall j | 0 <= j < i && t.order[j] == x ensures Latest(log + calls, x) == Some(calls[j].out) {
      assert calls[j].id == x;
      LatestOfDistinct(calls, j);
    }
    if Recorded(calls, x) {
      var j :| 0 <= j < |calls| && calls[j].id == x;
      assert t.order[..i][j] == x;
    }
  }

  // ---------------------------------------------------------------------------
  // Exactly when it is the previous tick's output
  // ---------------------------------------------------------------------------

  predicate NoTick<M, D, V>(calls: seq<Call<M, D, V>>) { forall k :: 0 <= k < |calls| ==> !calls[k].Tick? }

  /** Between two ticks nothing is recorded. */
  lemma {:induction false} NothingRecorded<M, D, V, O>(
    b: Behaviour<M, D, V, O>, run: seq<Call<M, D, V>>, rest: seq<Call<M, D, V>>)
    requires NoTick(rest)
    ensures Exec(b, run + rest).ticks == Exec(b, run).ticks
    decreases |rest|
  {
    if rest == [] {
      assert run + rest == run;
    } else {
      var n := |rest| - 1;
      NothingRecorded(b, run, rest[..n]);
      assert (run + rest)[..|run + rest| - 1] == run + rest[..n] && (run + rest)[|run| + n] == rest[n];
    }
  }

  /**
   A run up to some tick, that tick, and any starts, stops and updates after it: in the next tick a modulator that
   is not behind its source `x`, or is the source itself, reads the record of the previous tick if and only if `x`
   was active in that tick.  If it was, the record is that tick's output of `x`; if not, it is the one that could
   already be read before that tick, however old.
   */
  lemma {:induction false} ReadsPreviousTickExactly<M, D, V, O>(
    b: Behaviour<M, D, V, O>, run: seq<Call<M, D, V>>, previous: Call<M, D, V>, rest: seq<Call<M, D, V>>,
    beat: D, rate: V, i: nat, x: string)
    requires previous.Tick? && NoTick(rest)
    requires var t: Table<M, O> := Exec(b, run + [previous] + rest); i < |t.order| && x !in t.order[..i]
    ensures var s: Table<M, O>, t := Exec(b, run), Exec(b, run + [previous] + rest);
            var calls := RunTo(b, s, previous.beat, previous.rate, |s.order|).calls;
            var read := Lookup(Seen(b, t, beat, rate, i), x);
            && t.ticks == s.ticks + [calls] && |calls| == |s.order|
            && (LatestAt(Flatten(t.ticks), x) >= |Flatten(s.ticks)| <==> x in s.order)
            && (forall j :: 0 <= j < |s.order| && s.order[j] == x ==> read == Some(calls[j].out))
            && (x !in s.order ==> read == Latest(Flatten(s.ticks), x))
  {
    var s: Table<M, O>, t := Exec(b, run), Exec(b, run + [previous] + rest);
    var calls := RunTo(b, s, previous.beat, previous.rate, |s.order|).calls;
    ExecKeepsWf<M, D, V, O>(b, run);
    ExecKeepsWf<M, D, V, O>(b, run + [previous] + rest);
    NothingRecorded(b, run + [previous], rest);
    assert (run + [previous])[..|run|] == run;
    TickRecordsOrder(b, s, previous.beat, previous.rate, |s.order|);
    FlattenMore(s.ticks, calls);
    SeenDuringTick(b, t, beat, rate, i, x);
    LatestAmong(Flatten(s.ticks), calls, x);
    assert Recorded(calls, x) <==> x in s.order;
    forall j | 0 <= j < |s.order| && s.order[j] == x ensures Latest(Flatten(t.ticks), x) == Some(calls[j].out) {
      assert calls[j].id == x;
      LatestOfDistinct(calls, j);
    }
  }

  /**
   A stopped source is still read: x and y are started, a tick passes, x is stopped and another tick passes.  In
   the tick after that y still reads what x put out in the first tick.
   */
  lemma {:induction false} StoppedSourceStillRead<M, D, V, O>(
    b: Behaviour<M, D, V, O>, x: string, mx: M, y: string, my: M, beat: D, rate: V)
    requires x != y
    ensures var run := [Start(x, mx), Start(y, my), Tick(beat, rate), Stop(x), Tick(beat, rate)];
            var t: Table<M, O> := Exec(b, run);
            && t.order == [y] && |t.ticks| == 2 && !Recorded(t.ticks[1], x)
            && Lookup(Seen(b, t, beat, rate, 0), x) == Some((b.tick)(mx, beat, rate, map[]).1)
  {
    var s2 := [Start(x, mx), Start(y, my)];
    var s4 := s2 + [Tick(beat, rate), Stop(x)];
    var run := s4 + [Tick(beat, rate)];
    StoppedTable(b, x, mx, y, my, beat, rate);
    var s: Table<M, O>, t: Table<M, O> := Exec(b, s4), Exec(b, run);
    assert run[..4] == s4 && run == [Start(x, mx), Start(y, my), Tick(beat, rate), Stop(x), Tick(beat, rate)];
    assert s4 + [Tick(beat, rate)] + [] == run;
    ReadsPreviousTickExactly<M, D, V, O>(b, s4, Tick(beat, rate), [], beat, rate, 0, x);
    var calls := RunTo(b, s, beat, rate, 1).calls;
    ExecKeepsWf<M, D, V, O>(b, s4);
    TickRecordsOrder(b, s, beat, rate, 1);
  }

  /** The table once x has been stopped. */
  lemma {:induction false} StoppedTable<M, D, V, O>(
    b: Behaviour<M, D, V, O>, x: string, mx: M, y: string, my: M, beat: D, rate: V)
    requires x != y
    ensures var s4 := [Start(x, mx), Start(y, my)] + [Tick(beat, rate), Stop(x)];
            var t: Table<M, O> := Exec(b, s4);
            && t.order == [y] && |t.ticks| == 1
            && Latest(Flatten(t.ticks), x) == Some((b.tick)(mx, beat, rate, map[]).1)
  {
    var s2 := [Start(x, mx), Start(y, my)];
    var s3 := s2 + [Tick(beat, rate)];
    var s4 := s2 + [Tick(beat, rate), Stop(x)];
    assert s4 == s3 + [Stop(x)];
    ExecOne<M, D, V, O>(b, s2, Tick(beat, rate));
    ExecOne<M, D, V, O>(b, s3, Stop(x));
    TwoStarted<M, D, V, O>(b, x, mx, y, my);
    var t: Table<M, O> := Table(map[x := mx, y := my], [x, y], []);
    FirstOfTwo(b, t, x, beat, rate);
    var calls := RunTo(b, t, beat, rate, 2).calls;
    assert Do(b, t, Tick(beat, rate)).ticks == [calls];
    WithoutAt([x, y], x, 0);
    assert [x, y][..0] + [x, y][1..] == [y];
  }

  lemma {:induction false} TwoStarted<M, D, V, O>(b: Behaviour<M, D, V, O>, x: string, mx: M, y: string, my: M)
    requires x != y
    ensures Exec(b, [Start(x, mx), Start(y, my)]) == Table(map[x := mx, y := my], [x, y], [])
  {
    var s1, s2 := [Start(x, mx)], [Start(x, mx), Start(y, my)];
    assert s1[..0] == [] && s2[..1] == s1;
    assert Exec(b, s1) == Table(map[x := mx], [x], []);
  }

  lemma {:induction false} FirstOfTwo<M, D, V, O>(b: Behaviour<M, D, V, O>, t: Table<M, O>, x: string, beat: D, rate: V)
    requires Wf(t) && |t.order| == 2 && t.order[0] == x && x in t.mods && t.ticks == []
    ensures var calls := RunTo(b, t, beat, rate, 2).calls;
            && Flatten([calls]) == calls
            && Latest(calls, x) == Some((b.tick)(t.mods[x], beat, rate, map[]).1)
  {
    var p := RunTo(b, t, beat, rate, 2);
    RunToRan(b, t, beat, rate, 2);
    TickRecordsOrder(b, t, beat, rate, 2);
    assert RanAt(b, t, Outputs(t), beat, rate, p, 0) && p.calls[..0] == [];
    LatestOfDistinct(p.calls, 0);
    FlattenMore([], p.calls);
    assert [] + [p.calls] == [p.calls] && [] + p.calls == p.calls;
  }
}
