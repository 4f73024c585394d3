/**
 Copy-on-write of the modulator table under RCU (include/nomos/rt/rcu.hpp, src/modulator_engine.cpp).

 Any number of readers and writers take steps in any order; writers are serialised by write_mu_, so
 at most one is between lock and unlock.  The grace-period contract of liburcu is part of the step
 relation: a retired table is reclaimed only after every reader that was inside a read-side critical
 section at the call_rcu has left it.

 Steps do not ask whether the memory they touch is still there.  `Accesses` and `Touches` name the
 tables and modulators a step dereferences, and the theorems say that these are always live.
 */
module Rcu {
  import opened Basics

  type TableId = nat
  type ModId = nat
  type Reader = nat

  /** table_t: shared pointers to the modulators by id, and the tick order. */
  datatype Table = Table(mods: map<string, ModId>, order: seq<string>)

  const EMPTY: Table := Table(map[], [])

  /** A shared_ptr (or, while start holds it, the unique_ptr) that keeps a modulator alive. */
  datatype Handle = InTable(table: TableId, key: string) | WithCaller

  datatype Op = Start(id: string, mod: ModId) | Stop(id: string) | UpdateParam(id: string)

  /** The thread that holds write_mu_, if any. */
  datatype Writer =
    | Free
    | Locked(op: Op)
    | Loaded(op: Op, prev: Option<TableId>)      // unsafe_get done
    | Copied(op: Op, next: TableId)             // *old copied into a table of its own
    | Edited(op: Op, next: TableId)             // the copy holds the new content
    | Swapped(out: Option<TableId>)             // ptr_ exchanged, call_rcu not yet called
    | Unlocking

  datatype ReadSide = Outside | Entered | Holding(table: Option<TableId>)

  /**
   `tables` are the allocated tables, `freed` those already deleted; `retired` maps each table handed
   to call_rcu to the readers it still waits for; `owners` maps each living modulator to the handles on
   it, so its size is the shared_ptr use count; the logs record retirements and deletions.
   */
  datatype Sys = Sys(
    tables: map<TableId, Table>, freed: set<TableId>, current: Option<TableId>,
    retired: map<TableId, set<Reader>>, readers: map<Reader, ReadSide>, writer: Writer,
    owners: map<ModId, set<Handle>>, retireLog: seq<TableId>, freeLog: seq<TableId>)

  datatype Step =
    | ReaderEnter(r: Reader) | ReaderLoad(r: Reader) | ReaderUse(r: Reader, id: string) | ReaderExit(r: Reader)
    | Lock(op: Op) | Load | Copy(newId: TableId) | Edit | Swap | Retire | Update | Unlock
    | Reclaim(t: TableId)

  predicate Inside(rs: ReadSide) { !rs.Outside? }

  predicate Enabled(s: Sys, a: Step) {
    match a
    case ReaderEnter(r) => r in s.readers && s.readers[r].Outside?
    case ReaderLoad(r) => r in s.readers && s.readers[r].Entered?
    case ReaderUse(r, _) => r in s.readers && s.readers[r].Holding?
    case ReaderExit(r) => r in s.readers && Inside(s.readers[r])
    case Lock(op) => s.writer.Free? && (op.Start? ==> op.mod !in s.owners)
    case Load => s.writer.Locked?
    case Copy(newId) =>
      && s.writer.Loaded? && !s.writer.op.UpdateParam? && !(s.writer.op.Stop? && s.writer.prev.None?)
      && newId !in s.tables && newId !in s.freed
    case Edit => s.writer.Copied?
    case Swap => s.writer.Edited?
    case Retire => s.writer.Swapped?
    case Update => s.writer.Loaded? && (s.writer.op.UpdateParam? || (s.writer.op.Stop? && s.writer.prev.None?))
    case Unlock => s.writer.Unlocking?
    case Reclaim(t) => t in s.retired && s.retired[t] == {}
  }

  /** Reading through a table pointer; a null or dangling one would give no usable content. */
  function Deref(s: Sys, t: Option<TableId>): Table {
    if t.Some? && t.value in s.tables then s.tables[t.value] else EMPTY
  }

  /** What start and stop make of a table. */
  function EditTable(op: Op, t: Table): Table {
    match op
    case Start(id, mod) => Table(t.mods[id := mod], if id in t.mods then t.order else t.order + [id])
    case Stop(id) => Table(t.mods - {id}, Without(t.order, id))
    case UpdateParam(_) => t
  }

  /** The handles that a table with content `t` under name `id` holds on modulator `m`. */
  function Holds(id: TableId, t: Table, m: ModId): set<Handle> {
    set k | k in t.mods && t.mods[k] == m :: InTable(id, k)
  }

  function Others(hs: set<Handle>, id: TableId): set<Handle> {
    set h | h in hs && !(h.InTable? && h.table == id)
  }

  /** Replaces the handles of table `id` by those of content `t`; a modulator left without handles is destroyed. */
  function Rehold(owners: map<ModId, set<Handle>>, id: TableId, t: Table): map<ModId, set<Handle>> {
    map m | m in owners && Others(owners[m], id) + Holds(id, t, m) != {} :: Others(owners[m], id) + Holds(id, t, m)
  }

  /** start gives up its own handle once the table has one. */
  function GiveUp(owners: map<ModId, set<Handle>>): map<ModId, set<Handle>> {
    map m | m in owners && owners[m] - {WithCaller} != {} :: owners[m] - {WithCaller}
  }

  function Do(s: Sys, a: Step): Sys
    requires Enabled(s, a)
  {
    match a
    case ReaderEnter(r) => s.(readers := s.readers[r := Entered])
    case ReaderLoad(r) => s.(readers := s.readers[r := Holding(s.current)])
    case ReaderUse(_, _) => s
    case ReaderExit(r) =>
      s.(readers := s.readers[r := Outside], retired := map t | t in s.retired :: s.retired[t] - {r})
    case Lock(op) =>
      s.(writer := Locked(op), owners := if op.Start? then s.owners[op.mod := {WithCaller}] else s.owners)
    case Load => s.(writer := Loaded(s.writer.op, s.current))
    case Copy(newId) =>
      var t := Deref(s, s.writer.prev);
      s.(writer := Copied(s.writer.op, newId), tables := s.tables[newId := t], owners := Rehold(s.owners, newId, t))
    case Edit =>
      var t := EditTable(s.writer.op, Deref(s, Some(s.writer.next)));
      s.(writer := Edited(s.writer.op, s.writer.next), tables := s.tables[s.writer.next := t],
         owners := GiveUp(Rehold(s.owners, s.writer.next, t)))
    case Swap => s.(writer := Swapped(s.current), current := Some(s.writer.next))
    case Retire =>
      if s.writer.out.None? then s.(writer := Unlocking)
      else
        var t := s.writer.out.value;
        s.(writer := Unlocking, retireLog := s.retireLog + [t],
           retired := s.retired[t := set r | r in s.readers && Inside(s.readers[r])])
    case Update => s.(writer := Unlocking)
    case Unlock => s.(writer := Free)
    case Reclaim(t) =>
      s.(tables := s.tables - {t}, freed := s.freed + {t}, retired := s.retired - {t},
         owners := Rehold(s.owners, t, EMPTY), freeLog := s.freeLog + [t])
  }

  /** The tables a step dereferences. */
  function Accesses(s: Sys, a: Step): set<TableId>
    requires Enabled(s, a)
  {
    match a
    case ReaderUse(r, _) => Named(s.readers[r].table)
    case Copy(_) => Named(s.writer.prev)
    case Edit => {s.writer.next}
    case Update => Named(s.writer.prev)
    case Reclaim(t) => {t}
    case _ => {}
  }

  function Named(t: Option<TableId>): set<TableId> { if t.Some? then {t.value} else {} }

  /** The modulators a step calls into: tick by a reader, update by update_param. */
  function Touches(s: Sys, a: Step): set<ModId>
    requires Enabled(s, a)
  {
    match a
    case ReaderUse(r, id) =>
      var t := Deref(s, s.readers[r].table);
      if id in t.mods then {t.mods[id]} else {}
    case Update =>
      var t := Deref(s, s.writer.prev);
      if s.writer.op.UpdateParam? && s.writer.op.id in t.mods then {t.mods[s.writer.op.id]} else {}
    case _ => {}
  }

  predicate Init(s: Sys) {
    && (exists t :: t in s.tables && s.tables == map[t := EMPTY] && s.current == Some(t))
    && s.freed == {} && s.retired == map[] && s.writer.Free? && s.owners == map[]
    && s.retireLog == [] && s.freeLog == []
    && forall r :: r in s.readers ==> s.readers[r].Outside?
  }

  ghost predicate IsRun(trace: seq<Sys>) {
    && |trace| > 0 && Init(trace[0])
    && forall i :: 0 <= i < |trace| - 1 ==> StepAt(trace, i)
  }

  ghost predicate StepAt(trace: seq<Sys>, i: nat)
    requires i + 1 < |trace|
  {
    StepTo(trace[i], trace[i + 1])
  }

  ghost predicate StepTo(s: Sys, s': Sys) { exists a :: Enabled(s, a) && s' == Do(s, a) }

  // ---------------------------------------------------------------------------
  // The inductive invariant
  // ---------------------------------------------------------------------------

  /** The table the writer alone knows: its copy, or the one it has just taken out. */
  function WriterTable(w: Writer): set<TableId> {
    match w
    case Copied(_, next) => {next}
    case Edited(_, next) => {next}
    case Swapped(out) => Named(out)
    case _ => {}
  }

  /** Every allocated table is the current one, the writer's, or waiting to be reclaimed, and only one of these. */
  ghost predicate TablesOk(s: Sys) {
    && s.current.Some?
    && s.tables.Keys == {s.current.value} + WriterTable(s.writer) + s.retired.Keys
    && s.current.value !in WriterTable(s.writer) && s.current.value !in s.retired
    && WriterTable(s.writer) !! s.retired.Keys
    && s.tables.Keys !! s.freed
  }

  ghost predicate WriterOk(s: Sys) {
    && TablesOk(s)
    && (s.writer.Loaded? ==> s.writer.prev == s.current)
    && (s.writer.Copied? ==> s.tables[s.writer.next] == s.tables[s.current.value])
    && (s.writer.Edited? ==> s.tables[s.writer.next] == EditTable(s.writer.op, s.tables[s.current.value]))
    && (s.writer.Copied? || s.writer.Edited? ==> !s.writer.op.UpdateParam?)
    && (s.writer.Swapped? ==> s.writer.out.Some?)
  }

  /** A reader holds the current table, the one being taken out, or one whose reclamation waits for it. */
  ghost predicate ReadersOk(s: Sys) {
    && (forall r :: r in s.readers && s.readers[r].Holding? ==> ReaderSafe(s, r))
    && (forall t, r :: t in s.retired && r in s.retired[t] ==> r in s.readers && Inside(s.readers[r]))
  }

  ghost predicate ReaderSafe(s: Sys, r: Reader)
    requires r in s.readers && s.readers[r].Holding?
  {
    var t := s.readers[r].table;
    && t.Some?
    && (t == s.current || s.writer == Swapped(t) || (t.value in s.retired && r in s.retired[t.value]))
  }

  /** The handles are exactly the table entries, plus start's own handle before its edit. */
  ghost predicate OwnersOk(s: Sys) { Exact(s.tables, s.owners, CallerMod(s.writer)) }

  ghost predicate Exact(tables: map<TableId, Table>, owners: map<ModId, set<Handle>>, caller: Option<ModId>) {
    && (forall m :: m in owners ==> owners[m] != {})
    && (forall t, k :: t in tables && k in tables[t].mods ==>
          tables[t].mods[k] in owners && InTable(t, k) in owners[tables[t].mods[k]])
    && (forall m, h :: m in owners && h in owners[m] ==> HandleOk(tables, caller, m, h))
    && (caller.Some? ==> caller.value in owners && WithCaller in owners[caller.value])
  }

  ghost predicate HandleOk(tables: map<TableId, Table>, caller: Option<ModId>, m: ModId, h: Handle) {
    match h
    case InTable(t, k) => t in tables && k in tables[t].mods && tables[t].mods[k] == m
    case WithCaller => caller == Some(m)
  }

  function CallerMod(w: Writer): Option<ModId> {
    if (w.Locked? || w.Loaded? || w.Copied?) && w.op.Start? then Some(w.op.mod) else None
  }

  ghost predicate LogsOk(s: Sys) {
    && NoDup(s.retireLog) && NoDup(s.freeLog)
    && (forall t :: t in s.retireLog <==> t in s.retired || t in s.freed)
    && (forall t :: t in s.freeLog <==> t in s.freed)
  }

  ghost predicate Inv(s: Sys) {
    WriterOk(s) && ContentOk(s) && ReadersOk(s) && OwnersOk(s) && LogsOk(s)
  }

  lemma {:induction false} InitInv(s: Sys)
    requires Init(s)
    ensures Inv(s)
  {
  }

  lemma {:induction false} StepWriterOk(s: Sys, a: Step)
    requires WriterOk(s) && Enabled(s, a)
    ensures WriterOk(Do(s, a))
  {
  }

  lemma {:induction false} StepReadersOk(s: Sys, a: Step)
    requires WriterOk(s) && ReadersOk(s) && Enabled(s, a)
    ensures ReadersOk(Do(s, a))
  {
    var s' := Do(s, a);
    forall r | r in s'.readers && s'.readers[r].Holding? ensures ReaderSafe(s', r) {
      if a == ReaderLoad(r) {
      } else {
        assert ReaderSafe(s, r);
      }
    }
  }

  lemma {:induction false} ReholdListed(
    tables: map<TableId, Table>, owners: map<ModId, set<Handle>>, caller: Option<ModId>, id: TableId, t: Table,
    u: TableId, k: string)
    requires Exact(tables, owners, caller)
    requires forall k :: k in t.mods ==> t.mods[k] in owners
    requires u in tables[id := t] && k in tables[id := t][u].mods
    ensures var m, owners' := tables[id := t][u].mods[k], Rehold(owners, id, t);
            m in owners' && InTable(u, k) in owners'[m]
  {
    var m := tables[id := t][u].mods[k];
    assert InTable(u, k) in Others(owners[m], id) + Holds(id, t, m);
  }

  lemma {:induction false} ReholdOk(
    tables: map<TableId, Table>, owners: map<ModId, set<Handle>>, caller: Option<ModId>, id: TableId, t: Table,
    m: ModId, h: Handle)
    requires Exact(tables, owners, caller)
    requires m in Rehold(owners, id, t) && h in Rehold(owners, id, t)[m]
    ensures HandleOk(tables[id := t], caller, m, h)
  {
    if h in Others(owners[m], id) {
      assert HandleOk(tables, caller, m, h);
    }
  }

  /** Giving table `id` new content keeps the handles exact, as long as that content names living modulators. */
  lemma {:induction false} ReholdExact(
    tables: map<TableId, Table>, owners: map<ModId, set<Handle>>, caller: Option<ModId>, id: TableId, t: Table)
    requires Exact(tables, owners, caller)
    requires forall k :: k in t.mods ==> t.mods[k] in owners
    ensures Exact(tables[id := t], Rehold(owners, id, t), caller)
  {
    var tables', owners' := tables[id := t], Rehold(owners, id, t);
    forall u, k | u in tables' && k in tables'[u].mods
      ensures tables'[u].mods[k] in owners' && InTable(u, k) in owners'[tables'[u].mods[k]]
    {
      ReholdListed(tables, owners, caller, id, t, u, k);
    }
    forall m, h | m in owners' && h in owners'[m] ensures HandleOk(tables', caller, m, h) {
      ReholdOk(tables, owners, caller, id, t, m, h);
    }
    if caller.Some? {
      assert WithCaller in Others(owners[caller.value], id);
    }
  }

  lemma {:induction false} RemoveExact(
    tables: map<TableId, Table>, owners: map<ModId, set<Handle>>, caller: Option<ModId>, id: TableId)
    requires Exact(tables, owners, caller)
    ensures Exact(tables - {id}, Rehold(owners, id, EMPTY), caller)
  {
    ReholdExact(tables, owners, caller, id, EMPTY);
    var owners' := Rehold(owners, id, EMPTY);
    forall m, h | m in owners' && h in owners'[m] ensures HandleOk(tables - {id}, caller, m, h) {
      assert HandleOk(tables[id := EMPTY], caller, m, h);
    }
    forall u, k | u in tables - {id} && k in (tables - {id})[u].mods
      ensures (tables - {id})[u].mods[k] in owners' && InTable(u, k) in owners'[(tables - {id})[u].mods[k]]
    {
      assert u in tables[id := EMPTY] && tables[id := EMPTY][u] == (tables - {id})[u];
    }
  }

  lemma {:induction false} GiveUpExact(
    tables: map<TableId, Table>, owners: map<ModId, set<Handle>>, caller: Option<ModId>)
    requires Exact(tables, owners, caller)
    ensures Exact(tables, GiveUp(owners), None)
  {
    var owners' := GiveUp(owners);
    forall u, k | u in tables && k in tables[u].mods
      ensures tables[u].mods[k] in owners' && InTable(u, k) in owners'[tables[u].mods[k]]
    {
      assert InTable(u, k) in owners[tables[u].mods[k]] - {WithCaller};
    }
  }

  lemma {:induction false} CopyOwnersOk(s: Sys, newId: TableId)
    requires WriterOk(s) && OwnersOk(s) && Enabled(s, Copy(newId))
    ensures OwnersOk(Do(s, Copy(newId)))
  {
    ReholdExact(s.tables, s.owners, CallerMod(s.writer), newId, Deref(s, s.writer.prev));
  }

  lemma {:induction false} EditOwnersOk(s: Sys)
    requires WriterOk(s) && OwnersOk(s) && Enabled(s, Edit)
    ensures OwnersOk(Do(s, Edit))
  {
    var next := s.writer.next;
    var t := EditTable(s.writer.op, s.tables[next]);
    assert forall k :: k in t.mods ==> t.mods[k] in s.owners;
    ReholdExact(s.tables, s.owners, CallerMod(s.writer), next, t);
    GiveUpExact(s.tables[next := t], Rehold(s.owners, next, t), CallerMod(s.writer));
  }

  lemma {:induction false} LockOwnersOk(s: Sys, op: Op)
    requires OwnersOk(s) && Enabled(s, Lock(op))
    ensures OwnersOk(Do(s, Lock(op)))
  {
    var s' := Do(s, Lock(op));
    forall m, h | m in s'.owners && h in s'.owners[m] ensures HandleOk(s'.tables, CallerMod(s'.writer), m, h) {
      if m in s.owners && h in s.owners[m] {
        assert HandleOk(s.tables, None, m, h);
      }
    }
  }

  lemma {:induction false} StepOwnersOk(s: Sys, a: Step)
    requires WriterOk(s) && OwnersOk(s) && Enabled(s, a)
    ensures OwnersOk(Do(s, a))
  {
    match a {
      case Lock(op) => LockOwnersOk(s, op);
      case Copy(newId) => CopyOwnersOk(s, newId);
      case Edit => EditOwnersOk(s);
      case Reclaim(t) => RemoveExact(s.tables, s.owners, CallerMod(s.writer), t);
      case _ =>
        var s' := Do(s, a);
        assert s'.tables == s.tables && s'.owners == s.owners && CallerMod(s'.writer) == CallerMod(s.writer);
    }
  }

  /** A table lists each of its modulators once in its tick order. */
  ghost predicate WellFormed(t: Table) {
    NoDup(t.order) && forall k :: k in t.order <==> k in t.mods
  }

  ghost predicate ContentOk(s: Sys) { forall t :: t in s.tables ==> WellFormed(s.tables[t]) }

  lemma {:induction false} EditWellFormed(op: Op, t: Table)
    requires WellFormed(t)
    ensures WellFormed(EditTable(op, t))
  {
    if op.Stop? {
      WithoutIsRemoval(t.order, op.id);
    }
  }

  lemma {:induction false} StepContentOk(s: Sys, a: Step)
    requires WriterOk(s) && ContentOk(s) && Enabled(s, a)
    ensures ContentOk(Do(s, a))
  {
    if a.Edit? {
      EditWellFormed(s.writer.op, s.tables[s.writer.next]);
    }
  }

  lemma {:induction false} StepLogsOk(s: Sys, a: Step)
    requires WriterOk(s) && LogsOk(s) && Enabled(s, a)
    ensures LogsOk(Do(s, a))
  {
  }

  lemma {:induction false} StepKeepsInv(s: Sys, s': Sys)
    requires Inv(s) && StepTo(s, s')
    ensures Inv(s')
  {
    var a :| Enabled(s, a) && s' == Do(s, a);
    StepWriterOk(s, a);
    StepContentOk(s, a);
    StepReadersOk(s, a);
    StepOwnersOk(s, a);
    StepLogsOk(s, a);
  }

  lemma {:induction false} StepOf(trace: seq<Sys>, i: nat)
    requires IsRun(trace) && i + 1 < |trace|
    ensures StepTo(trace[i], trace[i + 1])
  {
    assert StepAt(trace, i);
  }

  lemma {:induction false} NextKeepsInv(trace: seq<Sys>, i: nat)
    requires IsRun(trace) && i + 1 < |trace| && Inv(trace[i])
    ensures Inv(trace[i + 1])
  {
    StepOf(trace, i);
    StepKeepsInv(trace[i], trace[i + 1]);
  }

  lemma {:induction false} RunKeepsInv(trace: seq<Sys>, i: nat)
    requires IsRun(trace) && i < |trace|
    ensures Inv(trace[i])
    decreases i
  {
    if i == 0 {
      InitInv(trace[0]);
    } else {
      RunKeepsInv(trace, i - 1);
      NextKeepsInv(trace, i - 1);
    }
  }

  // ---------------------------------------------------------------------------
  // Safety of every run
  // ---------------------------------------------------------------------------

  /** No step of any run dereferences a table that has been freed or a modulator that has been destroyed. */
  lemma {:induction false} NoUseAfterFree(trace: seq<Sys>, i: nat, a: Step)
    requires IsRun(trace) && i < |trace| && Enabled(trace[i], a)
    ensures Accesses(trace[i], a) <= trace[i].tables.Keys && Accesses(trace[i], a) !! trace[i].freed
    ensures Touches(trace[i], a) <= trace[i].owners.Keys
  {
    RunKeepsInv(trace, i);
    var s := trace[i];
    if a.ReaderUse? {
      assert ReaderSafe(s, a.r);
    }
  }

  /**
   A reader's snapshot is whole: while it holds a table, that table is allocated, every modulator it
   lists is alive, and it lists exactly the ids in its tick order, even if stop or a replacing start has
   removed some of them meanwhile.
   */
  lemma {:induction false} SnapshotAlive(trace: seq<Sys>, i: nat, r: Reader)
    requires IsRun(trace) && i < |trace|
    requires r in trace[i].readers && trace[i].readers[r].Holding?
    ensures var s := trace[i];
            && s.readers[r].table.Some? && s.readers[r].table.value in s.tables
            && var t := s.tables[s.readers[r].table.value];
               WellFormed(t) && forall k :: k in t.mods ==> t.mods[k] in s.owners
  {
    RunKeepsInv(trace, i);
    assert ReaderSafe(trace[i], r);
  }

  lemma {:induction false} HeldTableStays(s: Sys, r: Reader, a: Step)
    requires WriterOk(s) && ReadersOk(s) && Enabled(s, a)
    requires r in s.readers && s.readers[r].Holding? && a != ReaderExit(r)
    ensures var s' := Do(s, a);
            s'.readers[r] == s.readers[r] && Deref(s', s.readers[r].table) == Deref(s, s.readers[r].table)
  {
    assert ReaderSafe(s, r);
  }

  /** The table a reader holds does not change under it, whatever step anyone takes. */
  lemma {:induction false} SnapshotStable(trace: seq<Sys>, i: nat, r: Reader, a: Step)
    requires IsRun(trace) && i < |trace| && Enabled(trace[i], a)
    requires r in trace[i].readers && trace[i].readers[r].Holding? && a != ReaderExit(r)
    ensures var s, s' := trace[i], Do(trace[i], a);
            s'.readers[r] == s.readers[r] && Deref(s', s.readers[r].table) == Deref(s, s.readers[r].table)
  {
    RunKeepsInv(trace, i);
    HeldTableStays(trace[i], r, a);
  }

  /**
   The current table is never freed; each table is retired at most once and freed at most once, and only after
   being retired.
   */
  lemma {:induction false} RetiredOnce(trace: seq<Sys>, i: nat)
    requires IsRun(trace) && i < |trace|
    ensures var s := trace[i];
            && s.current.Some? && s.current.value in s.tables && s.current.value !in s.freed
            && NoDup(s.retireLog) && NoDup(s.freeLog)
            && forall t :: t in s.freeLog ==> t in s.retireLog
  {
    RunKeepsInv(trace, i);
  }

  /**
   Nothing leaks: between writers every allocated table is current or waiting for its readers to leave, and every
   living modulator is listed by an allocated table, or is still in the hands of the start that brings it.
   */
  lemma {:induction false} NoLeak(trace: seq<Sys>, i: nat)
    requires IsRun(trace) && i < |trace|
    ensures var s := trace[i];
            && s.current.Some?
            && (s.writer.Free? ==> s.tables.Keys == {s.current.value} + s.retired.Keys && CallerMod(s.writer).None?)
            && (forall m :: m in s.owners ==> CallerMod(s.writer) == Some(m) || Listed(s, m))
  {
    RunKeepsInv(trace, i);
    var s := trace[i];
    forall m | m in s.owners ensures CallerMod(s.writer) == Some(m) || Listed(s, m) {
      var h :| h in s.owners[m];
      assert HandleOk(s.tables, CallerMod(s.writer), m, h);
    }
  }

  /** Some allocated table lists the modulator. */
  ghost predicate Listed(s: Sys, m: ModId) {
    exists t, k :: t in s.tables && k in s.tables[t].mods && s.tables[t].mods[k] == m
  }

  /** start and stop take effect atomically: the table a swap installs is the edit of the table it replaces. */
  lemma {:induction false} SwapInstallsEdit(trace: seq<Sys>, i: nat)
    requires IsRun(trace) && i < |trace| && trace[i].writer.Edited?
    ensures var s, s' := trace[i], Do(trace[i], Swap);
            Deref(s', s'.current) == EditTable(s.writer.op, Deref(s, s.current))
  {
    RunKeepsInv(trace, i);
    SwapEffect(trace[i]);
  }

  lemma {:induction false} SwapEffect(s: Sys)
    requires WriterOk(s) && s.writer.Edited?
    ensures var s' := Do(s, Swap); Deref(s', s'.current) == EditTable(s.writer.op, Deref(s, s.current))
  {
    assert Deref(s, s.current) == s.tables[s.current.value];
  }

  /** The operation whose table a step installs, if any. */
  function InstalledBy(s: Sys, s': Sys): Option<Op> {
    if s.writer.Edited? && !s'.writer.Edited? then Some(s.writer.op) else None
  }

  function Then(ops: seq<Op>, op: Option<Op>): seq<Op> { if op.Some? then ops + [op.value] else ops }

  function EditIfAny(op: Option<Op>, t: Table): Table { if op.Some? then EditTable(op.value, t) else t }

  /** The operations whose tables have been installed by step `i`, in order. */
  function Installed(trace: seq<Sys>, i: nat): seq<Op>
    requires i < |trace|
    decreases i
  {
    if i == 0 then [] else Then(Installed(trace, i - 1), InstalledBy(trace[i - 1], trace[i]))
  }

  /** What a run of operations makes of the empty table. */
  function TableAfter(ops: seq<Op>): Table {
    if ops == [] then EMPTY else EditTable(ops[|ops| - 1], TableAfter(ops[..|ops| - 1]))
  }

  lemma {:induction false} TableAfterOne(ops: seq<Op>, op: Option<Op>)
    ensures TableAfter(Then(ops, op)) == EditIfAny(op, TableAfter(ops))
  {
    if op.Some? {
      assert (ops + [op.value])[..|ops|] == ops;
    }
  }

  lemma {:induction false} CurrentStays(s: Sys, a: Step)
    requires WriterOk(s) && Enabled(s, a) && !a.Swap?
    ensures var s' := Do(s, a);
            Deref(s', s'.current) == Deref(s, s.current) && (s.writer.Edited? ==> s'.writer.Edited?)
  {
  }

  /** The current table changes only by the operation that a step installs. */
  lemma {:induction false} CurrentFollows(s: Sys, s': Sys)
    requires WriterOk(s) && StepTo(s, s')
    ensures Deref(s', s'.current) == EditIfAny(InstalledBy(s, s'), Deref(s, s.current))
  {
    var a :| Enabled(s, a) && s' == Do(s, a);
    if a.Swap? {
      SwapEffect(s);
    } else {
      CurrentStays(s, a);
    }
  }

  lemma {:induction false} CurrentFollowsAt(trace: seq<Sys>, i: nat)
    requires IsRun(trace) && i + 1 < |trace|
    ensures Deref(trace[i + 1], trace[i + 1].current)
         == EditIfAny(InstalledBy(trace[i], trace[i + 1]), Deref(trace[i], trace[i].current))
  {
    RunKeepsInv(trace, i);
    StepOf(trace, i);
    CurrentFollows(trace[i], trace[i + 1]);
  }

  lemma {:induction false} InitEmpty(s: Sys)
    requires Init(s)
    ensures Deref(s, s.current) == EMPTY
  {
  }

  /** After every run the current table is what the installed operations, one after the other, make of the empty one. */
  lemma {:induction false} CurrentIsHistory(trace: seq<Sys>, i: nat)
    requires IsRun(trace) && i < |trace|
    ensures Deref(trace[i], trace[i].current) == TableAfter(Installed(trace, i))
    decreases i
  {
    if i == 0 {
      InitEmpty(trace[0]);
    } else {
      CurrentIsHistory(trace, i - 1);
      CurrentFollowsAt(trace, i - 1);
      TableAfterOne(Installed(trace, i - 1), InstalledBy(trace[i - 1], trace[i]));
    }
  }

  /**
   What a reader sees is one moment of that history: the table as it was at the step `j` of its own load, which came
   after it entered its read-side section and since which it has held this very table, however many operations have
   been installed meanwhile.
   */
  lemma {:induction false} SnapshotIsHistory(trace: seq<Sys>, i: nat, r: Reader) returns (j: nat)
    requires IsRun(trace) && i < |trace| && r in trace[i].readers && trace[i].readers[r].Holding?
    ensures j < i && r in trace[j].readers && trace[j].readers[r].Entered?
    ensures forall k :: j < k <= i ==> r in trace[k].readers && trace[k].readers[r] == trace[i].readers[r]
    ensures Deref(trace[i], trace[i].readers[r].table) == TableAfter(Installed(trace, j))
    decreases i
  {
    HeldOrLoadedAt(trace, i, r);
    if trace[i - 1].readers[r].Entered? {
      j := i - 1;
      CurrentIsHistory(trace, j);
    } else {
      j := SnapshotIsHistory(trace, i - 1, r);
    }
  }

  /** A reader that holds a table has just loaded the current one, or held this one before. */
  ghost predicate HeldOrLoaded(s: Sys, s': Sys, r: Reader)
    requires r in s'.readers && s'.readers[r].Holding?
  {
    && r in s.readers && (s.readers[r].Entered? || s.readers[r] == s'.readers[r])
    && Deref(s', s'.readers[r].table) == Deref(s, if s.readers[r].Entered? then s.current else s'.readers[r].table)
  }

  lemma {:induction false} HeldOrLoadedAt(trace: seq<Sys>, i: nat, r: Reader)
    requires IsRun(trace) && i < |trace| && r in trace[i].readers && trace[i].readers[r].Holding?
    ensures i > 0 && HeldOrLoaded(trace[i - 1], trace[i], r)
  {
    assert i > 0;
    RunKeepsInv(trace, i - 1);
    StepOf(trace, i - 1);
    HowHolding(trace[i - 1], trace[i], r);
  }

  lemma {:induction false} HowHolding(s: Sys, s': Sys, r: Reader)
    requires WriterOk(s) && ReadersOk(s) && StepTo(s, s') && r in s'.readers && s'.readers[r].Holding?
    ensures HeldOrLoaded(s, s', r)
  {
    var a :| Enabled(s, a) && s' == Do(s, a);
    WhoHolds(s, a, r);
    if a != ReaderLoad(r) {
      HeldTableStays(s, r, a);
    }
  }

  lemma {:induction false} WhoHolds(s: Sys, a: Step, r: Reader)
    requires Enabled(s, a) && r in Do(s, a).readers && Do(s, a).readers[r].Holding?
    ensures r in s.readers
    ensures a == ReaderLoad(r) ==>
              s.readers[r].Entered? && Deref(Do(s, a), Do(s, a).readers[r].table) == Deref(s, s.current)
    ensures a != ReaderLoad(r) ==> s.readers[r] == Do(s, a).readers[r] && a != ReaderExit(r)
  {
  }

  /** Nothing is destroyed under the write lock: only a reclamation ever ends a modulator's life. */
  lemma {:induction false} OnlyReclaimDestroys(trace: seq<Sys>, i: nat, a: Step)
    requires IsRun(trace) && i < |trace| && Enabled(trace[i], a) && !a.Reclaim?
    ensures trace[i].owners.Keys <= Do(trace[i], a).owners.Keys
  {
    RunKeepsInv(trace, i);
    if a.Copy? {
      CopyDestroysNothing(trace[i], a.newId);
    } else if a.Edit? {
      EditDestroysNothing(trace[i]);
    }
  }

  lemma {:induction false} CopyDestroysNothing(s: Sys, newId: TableId)
    requires WriterOk(s) && OwnersOk(s) && Enabled(s, Copy(newId))
    ensures s.owners.Keys <= Do(s, Copy(newId)).owners.Keys
  {
    forall m | m in s.owners ensures m in Do(s, Copy(newId)).owners {
      var h :| h in s.owners[m];
      assert HandleOk(s.tables, CallerMod(s.writer), m, h);
      assert h in Others(s.owners[m], newId);
    }
  }

  lemma {:induction false} EditDestroysNothing(s: Sys)
    requires WriterOk(s) && OwnersOk(s) && Enabled(s, Edit)
    ensures s.owners.Keys <= Do(s, Edit).owners.Keys
  {
    var next, cur := s.writer.next, s.current.value;
    var t := EditTable(s.writer.op, s.tables[next]);
    var mid := Rehold(s.owners, next, t);
    forall m | m in s.owners ensures m in GiveUp(mid) {
      var h :| h in s.owners[m];
      assert HandleOk(s.tables, CallerMod(s.writer), m, h);
      var h' := if h.WithCaller? then InTable(next, s.writer.op.id)
                else if h.table == next then InTable(cur, h.key) else h;
      assert h' in Others(s.owners[m], next) + Holds(next, t, m);
      assert h' in mid[m] - {WithCaller};
    }
  }
}
