/**
 The JSON-file store: a map in memory, written back to one file when dirty and
 reloaded when the file's modification time is not the remembered one. The main
 results compare it with a plain map and say exactly where the two part.
 */
module JsonStore {
  import opened Wrappers
  import opened OrderedMap

  datatype Rec = Rec(id: string, fields: OMap<string, string>)

  /** The argument of `create` and `update`; `id` is present only if the caller put one in. */
  datatype Patch = Patch(id: Option<string>, fields: OMap<string, string>)

  /** `{ ...r, ...p }` */
  function Merge(r: Rec, p: Patch): Rec {
    Rec(if p.id.Some? then p.id.value else r.id, Spread(r.fields, p.fields))
  }

  datatype File = File(records: seq<Rec>, mtime: int)

  datatype Store = Store(recordMap: OMap<string, Rec>, dirty: bool, lastChanged: int)

  /** One store, its file, and the time any write would be stamped with. */
  datatype System = System(store: Store, file: Option<File>, now: int)

  const NEW_STORE := Store([], false, 0)

  // ------------------------------------------------------------ the operations

  function Values(m: OMap<string, Rec>): seq<Rec> {
    if m == [] then [] else Values(m[..|m| - 1]) + [m[|m| - 1].val]
  }

  function Load(records: seq<Rec>): (m: OMap<string, Rec>)
    ensures Distinct(m)
  {
    if records == [] then []
    else
      var r := records[|records| - 1];
      Put(Load(records[..|records| - 1]), r.id, r)
  }

  function FileRecords(s: System): seq<Rec> {
    if s.file.None? then [] else s.file.value.records
  }

  function Inited(s: System): System {
    s.(file := Some(if s.file.None? then File([], s.now) else s.file.value),
       store := s.store.(recordMap := Load(FileRecords(s))))
  }

  function Flushed(s: System): System {
    if !s.store.dirty then s
    else
      s.(file := Some(File(Values(s.store.recordMap), s.now)),
         store := Store(s.store.recordMap, false, s.now))
  }

  function Reloaded(s: System): System {
    Inited(Flushed(s))
  }

  /** The time remembered afterwards is the one seen *before* the flush. */
  function Rechecked(s: System): System {
    if s.file.None? || s.file.value.mtime == s.store.lastChanged then s
    else
      var t := Reloaded(s);
      t.(store := t.store.(lastChanged := s.file.value.mtime))
  }

  function Opened(s: System): System {
    if s.store.recordMap == [] then Inited(s) else s
  }

  function Refreshed(s: System): System {
    Rechecked(Opened(s))
  }

  function Stored(s: System, id: string, r: Rec): System {
    s.(store := s.store.(recordMap := Put(s.store.recordMap, id, r), dirty := true))
  }

  datatype Op =
    | GetById(id: string)
    | GetAll
    | Create(id: string, input: Patch)
    | Update(id: string, patch: Patch)
    | Delete(id: string)
    | Flush
    | FlushReload
    | Tick(time: int)

  datatype Answer = Found(r: Option<Rec>) | All(rs: seq<Rec>) | Written(rec: Rec) | Refused | Done

  function Apply(s: System, op: Op): (System, Answer) {
    match op
    case GetById(id) => var t := Refreshed(s); (t, Found(Get(t.store.recordMap, id)))
    case GetAll => var t := Refreshed(s); (t, All(Values(t.store.recordMap)))
    case Create(id, input) =>
      if input.id.Some? then (s, Refused)
      else
        var t := Refreshed(s);
        if Has(t.store.recordMap, id) then (t, Refused)
        else var r := Rec(id, input.fields); (Stored(t, id, r), Written(r))
    case Update(id, patch) =>
      var t := Refreshed(s);
      if !Has(t.store.recordMap, id) then (t, Refused)
      else var r := Merge(Get(t.store.recordMap, id).value, patch); (Stored(t, id, r), Written(r))
    case Delete(id) =>
      var t := Opened(s);
      if !Has(t.store.recordMap, id) then (t, Done)
      else (t.(store := t.store.(recordMap := Remove(t.store.recordMap, id), dirty := true)), Done)
    case Flush => (Flushed(s), Done)
    case FlushReload => (Reloaded(s), Done)
    case Tick(time) => (s.(now := time), Done)
  }

  /** What a plain map would do and answer. */
  function PlainApply(m: OMap<string, Rec>, op: Op): (OMap<string, Rec>, Answer) {
    match op
    case GetById(id) => (m, Found(Get(m, id)))
    case GetAll => (m, All(Values(m)))
    case Create(id, input) =>
      if input.id.Some? || Has(m, id) then (m, Refused)
      else var r := Rec(id, input.fields); (Put(m, id, r), Written(r))
    case Update(id, patch) =>
      if !Has(m, id) then (m, Refused)
      else var r := Merge(Get(m, id).value, patch); (Put(m, id, r), Written(r))
    case Delete(id) => (Remove(m, id), Done)
    case _ => (m, Done)
  }

  // ---------------------------------------------------------------- the class

  class VirtualFile {
    var content: Option<seq<Rec>>
    var mtime: int
    var now: int

    constructor (content: Option<seq<Rec>>, mtime: int, now: int)
      ensures this.content == content && this.mtime == mtime && this.now == now
    {
      this.content, this.mtime, this.now := content, mtime, now;
    }

    method Write(records: seq<Rec>)
      modifies this
      ensures content == Some(records) && mtime == now == old(now)
    {
      content, mtime := Some(records), now;
    }
  }

  class JsonStorageStore {
    var recordMap: OMap<string, Rec>
    var dirty: bool
    var lastChangedMtime: int
    const file: VirtualFile

    constructor (file: VirtualFile)
      ensures this.file == file && Model().store == NEW_STORE
      ensures Valid()
    {
      this.file := file;
      recordMap, dirty, lastChangedMtime := [], false, 0;
    }

    /** A store that holds or owes anything has seen its file. */
    ghost predicate Valid()
      reads this, file
    {
      recordMap != [] || dirty ==> file.content.Some?
    }

    ghost function Model(): System
      reads this, file
    {
      System(Store(recordMap, dirty, lastChangedMtime),
             if file.content.None? then None else Some(File(file.content.value, file.mtime)),
             file.now)
    }

    method Init()
      modifies this, file
      ensures Model() == Inited(old(Model()))
      ensures Valid()
    {
      if file.content.None? {
        file.Write([]);
      }
      var records := file.content.value;
      recordMap := [];
      for i := 0 to |records|
        invariant recordMap == Load(records[..i])
        invariant unchanged(this`dirty, this`lastChangedMtime) && file.content == Some(records)
        invariant file.now == old(file.now)
        invariant file.mtime == if old(file.content).None? then old(file.now) else old(file.mtime)
      {
        assert records[..i + 1][..i] == records[..i];
        recordMap := Put(recordMap, records[i].id, records[i]);
      }
      assert records[..|records|] == records;
    }

    method WriteToFile()
      requires Valid()
      modifies this, file
      ensures Model() == Flushed(old(Model()))
      ensures Valid()
    {
      if !dirty { return; }
      dirty := false;
      var records := [];
      for i := 0 to |recordMap|
        invariant records == Values(recordMap[..i])
      {
        assert recordMap[..i + 1][..i] == recordMap[..i];
        records := records + [recordMap[i].val];
      }
      assert recordMap[..|recordMap|] == recordMap;
      file.Write(records);
      lastChangedMtime := file.mtime;
    }

    method FlushAndReload()
      requires Valid()
      modifies this, file
      ensures Model() == Reloaded(old(Model()))
      ensures Valid()
    {
      WriteToFile();
      recordMap := [];
      Init();
    }

    method ReloadIfChanged()
      requires Valid() && file.content.Some?
      modifies this, file
      ensures Model() == Rechecked(old(Model()))
      ensures Valid()
    {
      var mtime := file.mtime;
      if mtime != lastChangedMtime {
        FlushAndReload();
        lastChangedMtime := mtime;
      }
    }

    method GetById(id: string) returns (r: Option<Rec>)
      requires Valid()
      modifies this, file
      ensures (Model(), Found(r)) == Apply(old(Model()), Op.GetById(id))
      ensures Valid() && file.content.Some?
    {
      if |recordMap| == 0 { Init(); }
      ReloadIfChanged();
      r := Get(recordMap, id);
    }

    method GetAll() returns (rs: seq<Rec>)
      requires Valid()
      modifies this, file
      ensures (Model(), All(rs)) == Apply(old(Model()), Op.GetAll)
      ensures Valid()
    {
      if |recordMap| == 0 { Init(); }
      ReloadIfChanged();
      rs := Values(recordMap);
    }

    method Create(id: string, input: Patch) returns (r: Result<Rec, ()>)
      requires Valid()
      modifies this, file
      ensures (Model(), if r.Ok? then Written(r.value) else Refused) == Apply(old(Model()), Op.Create(id, input))
      ensures Valid()
    {
      if input.id.Some? { return Err(()); }
      var existing := GetById(id);
      if existing.Some? { return Err(()); }
      var newRecord := Rec(id, input.fields);
      recordMap := Put(recordMap, id, newRecord);
      dirty := true;
      return Ok(newRecord);
    }

    method Update(id: string, patch: Patch) returns (r: Result<Rec, ()>)
      requires Valid()
      modifies this, file
      ensures (Model(), if r.Ok? then Written(r.value) else Refused) == Apply(old(Model()), Op.Update(id, patch))
      ensures Valid()
    {
      var existing := GetById(id);
      if existing.None? { return Err(()); }
      var updated := Merge(existing.value, patch);
      recordMap := Put(recordMap, id, updated);
      dirty := true;
      return Ok(updated);
    }

    method Delete(id: string)
      requires Valid()
      modifies this, file
      ensures Model() == Apply(old(Model()), Op.Delete(id)).0
      ensures Valid()
    {
      if |recordMap| == 0 { Init(); }
      if Has(recordMap, id) {
        recordMap := Remove(recordMap, id);
        dirty := true;
      }
    }
  }

  // ----------------------------------------------- the store against a plain map

  ghost predicate WellKeyed(m: OMap<string, Rec>) {
    Distinct(m) && forall e :: e in m ==> e.val.id == e.key
  }

  lemma {:induction false} PutWellKeyed(m: OMap<string, Rec>, id: string, r: Rec)
    requires WellKeyed(m) && r.id == id
    ensures WellKeyed(Put(m, id, r))
  {
    if m != [] && m[0].key != id {
      assert WellKeyed(m[1..]);
      PutWellKeyed(m[1..], id, r);
    } else if m != [] {
      assert forall e :: e in m[1..] ==> e in m;
    }
  }

  lemma {:induction false} RemoveWellKeyed(m: OMap<string, Rec>, id: string)
    requires WellKeyed(m)
    ensures WellKeyed(Remove(m, id))
  {
    if m != [] {
      RemoveWellKeyed(m[1..], id);
    }
  }

  lemma {:induction false} LoadWellKeyed(records: seq<Rec>)
    ensures WellKeyed(Load(records))
  {
    if records != [] {
      LoadWellKeyed(records[..|records| - 1]);
      var r := records[|records| - 1];
      PutWellKeyed(Load(records[..|records| - 1]), r.id, r);
    }
  }

  /** Reading back what was written gives the same map, in the same order. */
  lemma {:induction false} LoadValues(m: OMap<string, Rec>)
    requires WellKeyed(m)
    ensures Load(Values(m)) == m
  {
    if m != [] {
      var rest, e := m[..|m| - 1], m[|m| - 1];
      DistinctInit(m);
      LoadValues(rest);
      assert Values(m)[..|Values(m)| - 1] == Values(rest);
      PutFresh(rest, e.key, e.val);
    }
  }

  /** The map the outside world should see: memory if it owes the file a write, the file otherwise. */
  function Abstract(s: System): OMap<string, Rec> {
    if s.store.dirty then s.store.recordMap else Load(FileRecords(s))
  }

  ghost predicate Inv(s: System) {
    && WellKeyed(s.store.recordMap)
    && (s.store.dirty ==> s.file.Some?)
    && (!s.store.dirty ==> s.store.recordMap == [] || (s.file.Some? && s.store.recordMap == Load(FileRecords(s))))
  }

  /** Everything was deleted, nothing flushed yet: the file still has what memory must not. */
  predicate Emptied(s: System) {
    s.store.dirty && s.store.recordMap == []
  }

  /** Exactly the calls at which `init()` brings deleted records back. */
  predicate Resurrects(s: System, op: Op) {
    Emptied(s) &&
    match op
    case GetById(_) => Load(FileRecords(s)) != []
    case GetAll => Load(FileRecords(s)) != []
    case Create(_, input) => input.id.None? && Load(FileRecords(s)) != []
    case Update(_, _) => Load(FileRecords(s)) != []
    case Delete(id) => Remove(Load(FileRecords(s)), id) != []
    case _ => false
  }

  predicate KeepsId(op: Op) {
    op.Update? && op.patch.id.Some? ==> op.patch.id.value == op.id
  }

  lemma NewStoreInv(file: Option<File>, now: int)
    ensures Inv(System(NEW_STORE, file, now))
  {
  }

  lemma FlushInv(s: System)
    requires Inv(s)
    ensures Inv(Flushed(s)) && Abstract(Flushed(s)) == Abstract(s)
    ensures Inv(Reloaded(s)) && Abstract(Reloaded(s)) == Abstract(s)
    ensures Reloaded(s).store.recordMap == Abstract(s)
  {
    LoadValues(s.store.recordMap);
    LoadWellKeyed(FileRecords(Flushed(s)));
  }

  /** After a read, memory is the whole truth. */
  lemma RefreshInv(s: System)
    requires Inv(s)
    ensures Inv(Refreshed(s)) && Refreshed(s).file.Some?
    ensures Refreshed(s).store.recordMap == Abstract(Refreshed(s))
    ensures Abstract(Refreshed(s)) == if Emptied(s) then Load(FileRecords(s)) else Abstract(s)
  {
    LoadWellKeyed(FileRecords(s));
    var t := Opened(s);
    assert Inv(t);
    FlushInv(t);
  }

  lemma StoredInv(s: System, id: string, r: Rec)
    requires Inv(s) && s.file.Some? && r.id == id
    ensures Inv(Stored(s, id, r))
  {
    PutWellKeyed(s.store.recordMap, id, r);
  }

  lemma DeletedInv(s: System, id: string)
    requires Inv(s)
    ensures Inv(Apply(s, Delete(id)).0)
  {
    LoadWellKeyed(FileRecords(s));
    RemoveWellKeyed(Opened(s).store.recordMap, id);
  }

  lemma ApplyInv(s: System, op: Op)
    requires Inv(s) && KeepsId(op)
    ensures Inv(Apply(s, op).0)
  {
    match op
    case Create(id, input) =>
      RefreshInv(s);
      StoredInv(Refreshed(s), id, Rec(id, input.fields));
    case Update(id, patch) =>
      RefreshInv(s);
      var t := Refreshed(s);
      if Has(t.store.recordMap, id) {
        GetEntry(t.store.recordMap, id);
        StoredInv(t, id, Merge(Get(t.store.recordMap, id).value, patch));
      }
    case Delete(id) => DeletedInv(s, id);
    case GetById(_) => RefreshInv(s);
    case GetAll => RefreshInv(s);
    case Flush => FlushInv(s);
    case FlushReload => FlushInv(s);
    case Tick(_) =>
  }

  /** The call answers as a plain map would, and leaves one. */
  ghost predicate Refines(s: System, op: Op) {
    (Abstract(Apply(s, op).0), Apply(s, op).1) == PlainApply(Abstract(s), op)
  }

  lemma CreateRefinesIff(s: System, id: string, input: Patch)
    requires Inv(s)
    ensures Refines(s, Create(id, input)) <==> !Resurrects(s, Create(id, input))
  {
    RefreshInv(s);
    var loaded := Load(FileRecords(s));
    if input.id.None? && Resurrects(s, Create(id, input)) && !Has(loaded, id) {
      PutFresh(loaded, id, Rec(id, input.fields));
    }
  }

  lemma ReadRefinesIff(s: System, op: Op)
    requires Inv(s) && (op.GetById? || op.GetAll? || op.Update?)
    ensures Refines(s, op) <==> !Resurrects(s, op)
  {
    RefreshInv(s);
  }

  lemma QuietRefinesIff(s: System, op: Op)
    requires Inv(s) && !op.GetById? && !op.GetAll? && !op.Update? && !op.Create?
    ensures Refines(s, op) <==> !Resurrects(s, op)
  {
    FlushInv(s);
  }

  /** One call answers as a plain map would, and stays one, unless it resurrects deleted records. */
  lemma StepRefinesIff(s: System, op: Op)
    requires Inv(s)
    ensures (Abstract(Apply(s, op).0), Apply(s, op).1) == PlainApply(Abstract(s), op) <==> !Resurrects(s, op)
  {
    match op
    case Create(id, input) => CreateRefinesIff(s, id, input);
    case GetById(_) => ReadRefinesIff(s, op);
    case GetAll => ReadRefinesIff(s, op);
    case Update(_, _) => ReadRefinesIff(s, op);
    case _ => QuietRefinesIff(s, op);
  }

  /** The store and its answers over a whole run. */
  function Run(s: System, ops: seq<Op>): System {
    if ops == [] then s else Apply(Run(s, ops[..|ops| - 1]), ops[|ops| - 1]).0
  }

  function PlainRun(m: OMap<string, Rec>, ops: seq<Op>): OMap<string, Rec> {
    if ops == [] then m else PlainApply(PlainRun(m, ops[..|ops| - 1]), ops[|ops| - 1]).0
  }

  /** No call of the run meets the emptied state over a file that still holds records. */
  ghost predicate NeverResurrects(s: System, ops: seq<Op>) {
    forall i {:trigger ops[i]} :: 0 <= i < |ops| ==> KeepsId(ops[i]) && !Resurrects(Run(s, ops[..i]), ops[i])
  }

  lemma NeverResurrectsPrefix(s: System, ops: seq<Op>, n: nat)
    requires NeverResurrects(s, ops) && n <= |ops|
    ensures NeverResurrects(s, ops[..n])
    ensures n < |ops| ==> KeepsId(ops[n]) && !Resurrects(Run(s, ops[..n]), ops[n])
  {
    assert forall i :: 0 <= i < n ==> ops[..n][i] == ops[i] && ops[..n][..i] == ops[..i];
  }

  lemma {:induction false} RunIsPlain(s: System, ops: seq<Op>)
    requires Inv(s) && NeverResurrects(s, ops)
    ensures Inv(Run(s, ops)) && Abstract(Run(s, ops)) == PlainRun(Abstract(s), ops)
  {
    if ops != [] {
      var n := |ops| - 1;
      NeverResurrectsPrefix(s, ops, n);
      RunIsPlain(s, ops[..n]);
      StepRefinesIff(Run(s, ops[..n]), ops[n]);
      ApplyInv(Run(s, ops[..n]), ops[n]);
    }
  }

  /**
   Under any schedule of flushes and reloads, every call of every run of a
   freshly opened store answers as a plain map that began with the file's records.
   */
  lemma StoreIsPlainMap(file: Option<File>, now: int, ops: seq<Op>, i: nat)
    requires NeverResurrects(System(NEW_STORE, file, now), ops) && i < |ops|
    ensures var s := System(NEW_STORE, file, now);
            Apply(Run(s, ops[..i]), ops[i]).1 == PlainApply(PlainRun(Load(FileRecords(s)), ops[..i]), ops[i]).1
  {
    var s := System(NEW_STORE, file, now);
    NewStoreInv(file, now);
    NeverResurrectsPrefix(s, ops, i);
    RunIsPlain(s, ops[..i]);
    StepRefinesIff(Run(s, ops[..i]), ops[i]);
  }

  lemma RunOfThree(s: System, m: OMap<string, Rec>, a: Op, b: Op, c: Op)
    ensures Run(s, [a, b, c]) == Apply(Apply(Apply(s, a).0, b).0, c).0
    ensures PlainRun(m, [a, b, c]) == PlainApply(PlainApply(PlainApply(m, a).0, b).0, c).0
  {
    assert [a, b, c][..2] == [a, b] && [a, b][..1] == [a] && [a][..0] == [];
    assert Run(s, [a][..0]) == s && PlainRun(m, [a][..0]) == m;
    assert Run(s, [a]) == Apply(s, a).0;
    assert PlainRun(m, [a]) == PlainApply(m, a).0;
    assert Run(s, [a, b]) == Apply(Run(s, [a]), b).0;
  }

  lemma OneRecord(r: Rec)
    ensures Load([r]) == [Entry(r.id, r)] && Values([Entry(r.id, r)]) == [r]
  {
    assert [r][..0] == [] && [Entry(r.id, r)][..0] == [];
  }

  /** Create, flush, delete, read: the deleted record is answered. */
  lemma DeletedRecordComesBack()
    ensures var s := System(NEW_STORE, None, 7);
            var ops := [Create("a", Patch(None, [])), Flush, Delete("a")];
            && Apply(Run(s, ops), GetById("a")).1 == Found(Some(Rec("a", [])))
            && PlainApply(PlainRun([], ops), GetById("a")).1 == Found(None)
  {
    var s, a := System(NEW_STORE, None, 7), Rec("a", []);
    RunOfThree(s, [], Create("a", Patch(None, [])), Flush, Delete("a"));
    OneRecord(a);
    var s1 := Apply(s, Create("a", Patch(None, []))).0;
    assert s1.store.recordMap == [Entry("a", a)] && s1.store.dirty;
    var s2 := Apply(s1, Flush).0;
    assert s2 == System(Store([Entry("a", a)], false, 7), Some(File([a], 7)), 7);
    var s3 := Apply(s2, Delete("a")).0;
    assert s3 == System(Store([], true, 7), Some(File([a], 7)), 7);
    assert Refreshed(s3).store.recordMap == [Entry("a", a)];
  }

  // ------------------------------------------------------ patches that carry an id

  lemma {:induction false} LoadedKeysAreIds(records: seq<Rec>, id: string)
    requires forall r :: r in records ==> r.id != id
    ensures Get(Load(records), id).None?
  {
    if records != [] {
      LoadedKeysAreIds(records[..|records| - 1], id);
    }
  }

  lemma {:induction false} ValuesAreValues(m: OMap<string, Rec>)
    ensures forall r :: r in Values(m) ==> exists e :: e in m && e.val == r
  {
    if m != [] {
      ValuesAreValues(m[..|m| - 1]);
      assert m[|m| - 1] in m;
    }
  }

  lemma {:induction false} PutEntries<V>(m: OMap<string, V>, k: string, v: V)
    requires Distinct(m)
    ensures forall e :: e in Put(m, k, v) ==> e == Entry(k, v) || (e in m && e.key != k)
  {
    if m != [] && m[0].key != k {
      PutEntries(m[1..], k, v);
    } else if m != [] {
      GetEntry(m[1..], k);
      assert m == [m[0]] + m[1..];
    }
  }

  /** An update survives the next flush and reload if and only if its patch does not change the id. */
  lemma UpdateSurvivesReloadIff(s: System, id: string, patch: Patch)
    requires Inv(s) && !Emptied(s) && Has(Abstract(s), id)
    ensures var op := Update(id, patch);
            Abstract(Reloaded(Apply(s, op).0)) == PlainApply(Abstract(s), op).0 <==> KeepsId(op)
  {
    var op := Update(id, patch);
    var u := Apply(s, op).0;
    RefreshInv(s);
    if KeepsId(op) {
      ApplyInv(s, op);
      FlushInv(u);
      StepRefinesIff(s, op);
    } else {
      var m := Refreshed(s).store.recordMap;
      var r := Merge(Get(m, id).value, patch);
      PutEntries(m, id, r);
      ValuesAreValues(u.store.recordMap);
      LoadedKeysAreIds(Values(u.store.recordMap), id);
    }
  }

  // ---------------------------------------------------------- an outside writer

  /** A store that notices an outside write ends with one side's records whole, memory and file agreeing. */
  lemma OutsideWriteTakenWhole(s: System, records: seq<Rec>, mtime: int)
    requires Inv(s) && mtime != s.store.lastChanged
    ensures var t := Refreshed(s.(file := Some(File(records, mtime))));
            && t.file.Some?
            && t.store.recordMap == Load(t.file.value.records)
            && (if s.store.dirty && s.store.recordMap != []
                then t.store.recordMap == s.store.recordMap && t.file.value.records == Values(s.store.recordMap)
                else t.store.recordMap == Load(records))
            && (!s.store.dirty ==> t.file.value.records == records)
            && !t.store.dirty
  {
    LoadWellKeyed(records);
    LoadValues(Load(records));
    LoadValues(s.store.recordMap);
  }

  /** A dirty store that is flushed and opened again later, by another instance, holds the same map. */
  lemma FlushThenReopen(s: System, later: int)
    requires Inv(s) && s.store.dirty
    ensures Refreshed(System(NEW_STORE, Flushed(s).file, later)).store.recordMap == s.store.recordMap
  {
    LoadValues(s.store.recordMap);
  }
}
