/** What a caller of the JSON store reads and writes, field by field. */
module StoreCalls {
  import opened Wrappers
  import opened OrderedMap
  import opened JsonStore

  // ---------------------------------------------------------------- the plain map

  /** A read changes nothing and answers with the record under the id. */
  lemma PlainReads(m: OMap<string, Rec>, id: string)
    ensures PlainApply(m, GetById(id)) == (m, Found(Get(m, id)))
    ensures PlainApply(m, GetAll).0 == m
    ensures PlainApply(m, GetAll).1.All? && |PlainApply(m, GetAll).1.rs| == |m|
    ensures forall i :: 0 <= i < |m| ==> PlainApply(m, GetAll).1.rs[i] == m[i].val
  {
    ValuesAt(m);
  }

  lemma {:induction false} ValuesAt(m: OMap<string, Rec>)
    ensures |Values(m)| == |m| && forall i :: 0 <= i < |m| ==> Values(m)[i] == m[i].val
  {
    if m != [] {
      ValuesAt(m[..|m| - 1]);
    }
  }

  /** `create` refuses an input with an id and an id in use, and otherwise stores exactly the input. */
  lemma PlainCreates(m: OMap<string, Rec>, id: string, input: Patch)
    ensures var (m', answer) := PlainApply(m, Create(id, input));
            if input.id.Some? || Has(m, id) then m' == m && answer == Refused
            else
              && answer == Written(Rec(id, input.fields)) && Get(m', id) == Some(Rec(id, input.fields))
              && forall other :: other != id ==> Get(m', other) == Get(m, other)
  {
  }

  /** `update` refuses an unknown id, and otherwise lets the patch win, field by field. */
  lemma PlainUpdates(m: OMap<string, Rec>, id: string, patch: Patch, k: string)
    requires Distinct(patch.fields)
    ensures var (m', answer) := PlainApply(m, Update(id, patch));
            if !Has(m, id) then m' == m && answer == Refused
            else
              var was := Get(m, id).value;
              && answer.Written? && Get(m', id) == Some(answer.rec)
              && answer.rec.id == (if patch.id.Some? then patch.id.value else was.id)
              && Get(answer.rec.fields, k) == (if Has(patch.fields, k) then Get(patch.fields, k) else Get(was.fields, k))
              && forall other :: other != id ==> Get(m', other) == Get(m, other)
  {
  }

  /** `delete` takes the one record out; everything else, flushes and reloads included, leaves the map alone. */
  lemma PlainRest(m: OMap<string, Rec>, id: string, op: Op)
    ensures var m' := PlainApply(m, Delete(id)).0;
            Get(m', id).None? && forall other :: other != id ==> Get(m', other) == Get(m, other)
    ensures op.Flush? || op.FlushReload? || op.Tick? ==> PlainApply(m, op).0 == m
  {
  }

  // -------------------------------------------------------------------- the store

  /** The next read of an id, when the call before left a store that is not emptied. */
  lemma NextRead(s: System, id: string)
    requires Inv(s) && !Emptied(s)
    ensures Apply(s, GetById(id)).1 == Found(Get(Abstract(s), id))
  {
    StepRefinesIff(s, GetById(id));
  }

  lemma PutIsNotEmpty(m: OMap<string, Rec>, id: string, r: Rec)
    ensures Put(m, id, r) != []
  {
  }

  /**
   An accepted update answers, and keeps for the next read, the record that was
   read before with the patch's fields over its own.
   */
  lemma UpdateWritesThePatch(s: System, id: string, patch: Patch, k: string)
    requires Inv(s) && Distinct(patch.fields) && Apply(s, Update(id, patch)).1.Written?
    ensures Apply(s, GetById(id)).1.Found? && Apply(s, GetById(id)).1.r.Some?
    ensures var was, rec := Apply(s, GetById(id)).1.r.value, Apply(s, Update(id, patch)).1.rec;
            && rec.id == (if patch.id.Some? then patch.id.value else was.id)
            && Get(rec.fields, k) == (if Has(patch.fields, k) then Get(patch.fields, k) else Get(was.fields, k))
            && (patch.id.None? || patch.id.value == id ==>
                  Apply(Apply(s, Update(id, patch)).0, GetById(id)).1 == Found(Some(rec)))
  {
    var s' := Apply(s, Update(id, patch)).0;
    if patch.id.None? || patch.id.value == id {
      ApplyInv(s, Update(id, patch));
      PutIsNotEmpty(Refreshed(s).store.recordMap, id, Apply(s, Update(id, patch)).1.rec);
      NextRead(s', id);
    }
  }

  /** An update is refused exactly for an id that a read would not find. */
  lemma UpdateRefusedIff(s: System, id: string, patch: Patch)
    ensures Apply(s, Update(id, patch)).1 == Refused <==> Apply(s, GetById(id)).1 == Found(None)
  {
  }

  /** A record created is the one read next; creating is refused exactly for an id given in the input or found by a read. */
  lemma CreateWritesTheInput(s: System, id: string, input: Patch)
    requires Inv(s)
    ensures Apply(s, Create(id, input)).1 == Refused <==> input.id.Some? || Apply(s, GetById(id)).1 != Found(None)
    ensures Apply(s, Create(id, input)).1 != Refused ==>
              && Apply(s, Create(id, input)).1 == Written(Rec(id, input.fields))
              && Apply(Apply(s, Create(id, input)).0, GetById(id)).1 == Found(Some(Rec(id, input.fields)))
  {
    if Apply(s, Create(id, input)).1 != Refused {
      ApplyInv(s, Create(id, input));
      PutIsNotEmpty(Refreshed(s).store.recordMap, id, Rec(id, input.fields));
      NextRead(Apply(s, Create(id, input)).0, id);
    }
  }

  /** A record deleted is not read next, nor is any other changed, unless the store was left empty over a file that still has some. */
  lemma DeleteTakesOneOut(s: System, id: string, other: string)
    requires Inv(s) && !Emptied(s)
    ensures var s' := Apply(s, Delete(id)).0;
            !Emptied(s') ==>
              && Apply(s', GetById(id)).1 == Found(None)
              && (other != id ==> Apply(s', GetById(other)).1 == Apply(s, GetById(other)).1)
  {
    var s' := Apply(s, Delete(id)).0;
    ApplyInv(s, Delete(id));
    StepRefinesIff(s, Delete(id));
    if !Emptied(s') {
      NextRead(s', id);
      NextRead(s', other);
      NextRead(s, other);
    }
  }

  /** A flush writes the whole map with the time of the write, and only if there is something to write. */
  lemma FlushWrites(s: System)
    ensures var s' := Apply(s, Flush).0;
            if !s.store.dirty then s' == s
            else
              && s'.file.Some? && s'.file.value.mtime == s.now && |s'.file.value.records| == |s.store.recordMap|
              && (forall i :: 0 <= i < |s.store.recordMap| ==> s'.file.value.records[i] == s.store.recordMap[i].val)
              && s'.store.recordMap == s.store.recordMap && !s'.store.dirty && s'.store.lastChanged == s.now
  {
    ValuesAt(s.store.recordMap);
  }

  /**
   A dirty store that notices an outside write remembers the time it noticed, not
   that of its own flush, and so notices its own write at the next read.
   */
  lemma NoticesItsOwnWrite(s: System)
    requires s.store.recordMap != [] && s.store.dirty && s.file.Some? && s.file.value.mtime != s.store.lastChanged
    ensures var s' := Refreshed(s);
            && s'.file.Some? && s'.file.value.mtime == s.now && s'.store.lastChanged == s.file.value.mtime
            && (s.now != s.file.value.mtime ==> s'.file.value.mtime != s'.store.lastChanged)
  {
  }

  /** A store opened for the first time makes its file, or reads it. */
  lemma FirstRead(file: Option<File>, now: int)
    ensures var s' := Apply(System(NEW_STORE, file, now), GetAll).0;
            && s'.file == Some(if file.None? then File([], now) else file.value)
            && (file.None? ==> Apply(System(NEW_STORE, file, now), GetAll).1 == All([]))
  {
  }
}
