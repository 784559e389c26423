/**
 Loading middleware: definitions are validated, disabled ones dropped, and the
 rest sorted by priority with a stable sort; each phase and step then selects its own.
 */
module MiddlewareManager {
  import opened Wrappers

  /** A `priority` as found: absent, an integer, or something else. */
  datatype Priority = Unset | Int(n: int) | NotInteger

  /** One element of the loaded array; `tag` tells equal-looking definitions apart. */
  datatype Definition =
    | NotAnObject
    | Definition(phase: string, step: string, handlerArity: Option<nat>, priority: Priority,
                 enabled: Option<bool>, tag: nat)

  const PHASES := {"before", "after"}
  const STEPS := {"parsing", "signatureVerification", "trustVerification", "onArtifact", "onError"}
  const MAX_SAFE_INTEGER := 9007199254740991

  predicate IsValid(mw: Definition) {
    && mw.Definition?
    && mw.phase in PHASES
    && mw.step in STEPS
    && mw.handlerArity.Some? && mw.handlerArity.value >= 3
    && (mw.priority.Unset? || (mw.priority.Int? && mw.priority.n >= 0))
  }

  predicate IsLoaded(mw: Definition) {
    IsValid(mw) && mw.enabled != Some(false)
  }

  /** `priority ?? Number.MAX_SAFE_INTEGER` */
  function Key(mw: Definition): int {
    if mw.Definition? && mw.priority.Int? then mw.priority.n else MAX_SAFE_INTEGER
  }

  // ----------------------------------------------------------- filter and sort

  /** `ms.filter(q)` */
  function Select(ms: seq<Definition>, q: Definition -> bool): seq<Definition> {
    if ms == [] then []
    else if q(ms[0]) then [ms[0]] + Select(ms[1..], q)
    else Select(ms[1..], q)
  }

  lemma {:induction false} SelectSnoc(ms: seq<Definition>, mw: Definition, q: Definition -> bool)
    ensures Select(ms + [mw], q) == if q(mw) then Select(ms, q) + [mw] else Select(ms, q)
  {
    if ms == [] {
      assert ms + [mw] == [mw];
    } else {
      SelectSnoc(ms[1..], mw, q);
      assert (ms + [mw])[1..] == ms[1..] + [mw];
    }
  }

  /** Placed after every definition whose key is not above the new one. */
  function Insert(mw: Definition, ms: seq<Definition>): (r: seq<Definition>)
    ensures forall m :: m in r <==> m == mw || m in ms
  {
    if ms == [] then [mw]
    else if Key(ms[0]) > Key(mw) then [mw] + ms
    else [ms[0]] + Insert(mw, ms[1..])
  }

  /** The stable sort by key. */
  function StableSort(ms: seq<Definition>): seq<Definition> {
    if ms == [] then [] else Insert(ms[|ms| - 1], StableSort(ms[..|ms| - 1]))
  }

  function AtStep(phase: string, step: string): Definition -> bool {
    (mw: Definition) => mw.Definition? && mw.phase == phase && mw.step == step
  }

  function KeyIs(k: int): Definition -> bool {
    (mw: Definition) => Key(mw) == k
  }

  class Manager {
    var middleware: seq<Definition>

    constructor ()
      ensures middleware == []
    {
      middleware := [];
    }

    method ValidateAndSort(ms: seq<Definition>)
      modifies this
      ensures middleware == StableSort(Select(ms, IsLoaded))
    {
      var valid := [];
      for i := 0 to |ms|
        invariant valid == Select(ms[..i], IsLoaded)
      {
        SelectSnoc(ms[..i], ms[i], IsLoaded);
        assert ms[..i + 1] == ms[..i] + [ms[i]];
        if IsValid(ms[i]) && ms[i].enabled != Some(false) {
          valid := valid + [ms[i]];
        }
      }
      assert ms[..|ms|] == ms;
      middleware := SortByPriority(valid);
    }

    /** `sort`, which the language standard requires to be stable. */
    static method SortByPriority(ms: seq<Definition>) returns (r: seq<Definition>)
      ensures r == StableSort(ms)
    {
      r := [];
      for i := 0 to |ms|
        invariant r == StableSort(ms[..i])
      {
        assert ms[..i + 1][..i] == ms[..i];
        r := InsertAt(ms[i], r);
      }
      assert ms[..|ms|] == ms;
    }

    static method InsertAt(mw: Definition, ms: seq<Definition>) returns (r: seq<Definition>)
      ensures r == Insert(mw, ms)
    {
      var at := 0;
      while at < |ms| && Key(ms[at]) <= Key(mw)
        invariant at <= |ms|
        invariant Insert(mw, ms) == ms[..at] + Insert(mw, ms[at..])
      {
        InsertSkips(mw, ms, at);
        at := at + 1;
      }
      r := ms[..at] + [mw] + ms[at..];
      assert Insert(mw, ms[at..]) == [mw] + ms[at..];
    }

    static lemma InsertSkips(mw: Definition, ms: seq<Definition>, at: nat)
      requires at < |ms| && Key(ms[at]) <= Key(mw)
      ensures ms[..at] + Insert(mw, ms[at..]) == ms[..at + 1] + Insert(mw, ms[at + 1..])
    {
      var rest := Insert(mw, ms[at + 1..]);
      assert ms[at..][1..] == ms[at + 1..];
      assert Insert(mw, ms[at..]) == [ms[at]] + rest;
      assert ms[..at + 1] == ms[..at] + [ms[at]];
      MovesOver(ms[..at], ms[at], rest);
    }

    static lemma MovesOver(before: seq<Definition>, mw: Definition, after: seq<Definition>)
      ensures before + ([mw] + after) == before + [mw] + after
    {
    }

    method GetMiddleware(phase: string, step: string) returns (r: seq<Definition>)
      ensures r == Select(middleware, AtStep(phase, step))
    {
      r := [];
      for i := 0 to |middleware|
        invariant r == Select(middleware[..i], AtStep(phase, step))
      {
        SelectSnoc(middleware[..i], middleware[i], AtStep(phase, step));
        assert middleware[..i + 1] == middleware[..i] + [middleware[i]];
        if middleware[i].Definition? && middleware[i].phase == phase && middleware[i].step == step {
          r := r + [middleware[i]];
        }
      }
      assert middleware[..|middleware|] == middleware;
    }
  }

  // ----------------------------------------------------------------- the sort

  ghost predicate Sorted(ms: seq<Definition>) {
    forall i, j :: 0 <= i < j < |ms| ==> Key(ms[i]) <= Key(ms[j])
  }

  lemma HeadIsLeast(ms: seq<Definition>)
    requires Sorted(ms) && ms != []
    ensures forall m :: m in ms ==> Key(ms[0]) <= Key(m)
  {
    forall m | m in ms
      ensures Key(ms[0]) <= Key(m)
    {
      var i :| 0 <= i < |ms| && ms[i] == m;
      assert i > 0 ==> Key(ms[0]) <= Key(ms[i]);
    }
  }

  lemma {:induction false} InsertSorted(mw: Definition, ms: seq<Definition>)
    requires Sorted(ms)
    ensures Sorted(Insert(mw, ms))
  {
    if ms != [] && Key(ms[0]) <= Key(mw) {
      var rest := Insert(mw, ms[1..]);
      InsertSorted(mw, ms[1..]);
      HeadIsLeast(ms);
      assert forall i :: 0 <= i < |rest| ==> rest[i] in rest;
      assert forall m :: m in rest ==> m == mw || m in ms;
    }
  }

  lemma {:induction false} InsertMultiset(mw: Definition, ms: seq<Definition>)
    ensures multiset(Insert(mw, ms)) == multiset(ms) + multiset{mw}
  {
    if ms != [] {
      InsertMultiset(mw, ms[1..]);
      assert ms == [ms[0]] + ms[1..];
    }
  }

  /** The result is sorted and has the same definitions. */
  lemma {:induction false} SortSorts(ms: seq<Definition>)
    ensures Sorted(StableSort(ms))
    ensures multiset(StableSort(ms)) == multiset(ms)
    ensures forall m :: m in StableSort(ms) <==> m in ms
  {
    if ms != [] {
      var rest, last := ms[..|ms| - 1], ms[|ms| - 1];
      SortSorts(rest);
      InsertSorted(last, StableSort(rest));
      InsertMultiset(last, StableSort(rest));
      assert ms == rest + [last];
    }
  }

  lemma {:induction false} SelectMembers(ms: seq<Definition>, q: Definition -> bool)
    ensures forall m :: m in Select(ms, q) <==> m in ms && q(m)
  {
    if ms != [] {
      SelectMembers(ms[1..], q);
      assert ms == [ms[0]] + ms[1..];
    }
  }

  /** Where every key is above the new one, the new one goes first. */
  lemma InsertFirst(mw: Definition, ms: seq<Definition>)
    requires forall m :: m in ms ==> Key(m) > Key(mw)
    ensures Insert(mw, ms) == [mw] + ms
  {
  }

  lemma {:induction false} SelectInsert(mw: Definition, ms: seq<Definition>, q: Definition -> bool)
    requires Sorted(ms)
    ensures Select(Insert(mw, ms), q) == if q(mw) then Insert(mw, Select(ms, q)) else Select(ms, q)
  {
    if ms != [] {
      var r := Insert(mw, ms);
      if Key(ms[0]) > Key(mw) {
        assert r == [mw] + ms && r[1..] == ms;
        SelectMembers(ms, q);
        InsertFirst(mw, Select(ms, q));
      } else {
        SelectInsert(mw, ms[1..], q);
        assert r[0] == ms[0] && r[1..] == Insert(mw, ms[1..]);
        if q(ms[0]) {
          assert Select(ms, q)[1..] == Select(ms[1..], q);
        }
      }
    }
  }

  /** Filtering commutes with the stable sort, for every filter. */
  lemma {:induction false} FilterCommutesWithSort(ms: seq<Definition>, q: Definition -> bool)
    ensures Select(StableSort(ms), q) == StableSort(Select(ms, q))
  {
    if ms != [] {
      var rest, last := ms[..|ms| - 1], ms[|ms| - 1];
      FilterCommutesWithSort(rest, q);
      SortSorts(rest);
      SelectInsert(last, StableSort(rest), q);
      SelectSnoc(rest, last, q);
      assert ms == rest + [last];
      if q(last) {
        SortSnoc(Select(rest, q), last);
      }
    }
  }

  lemma SortSnoc(ms: seq<Definition>, mw: Definition)
    ensures StableSort(ms + [mw]) == Insert(mw, StableSort(ms))
  {
    assert (ms + [mw])[..|ms|] == ms;
  }

  lemma {:induction false} InsertLast(mw: Definition, ms: seq<Definition>)
    requires forall m :: m in ms ==> Key(m) <= Key(mw)
    ensures Insert(mw, ms) == ms + [mw]
  {
    if ms != [] {
      InsertLast(mw, ms[1..]);
    }
  }

  lemma {:induction false} EqualKeysStay(ms: seq<Definition>, k: int)
    requires forall m :: m in ms ==> Key(m) == k
    ensures StableSort(ms) == ms
  {
    if ms != [] {
      EqualKeysStay(ms[..|ms| - 1], k);
      InsertLast(ms[|ms| - 1], ms[..|ms| - 1]);
    }
  }

  /** Definitions of equal priority keep their order. */
  lemma SortIsStable(ms: seq<Definition>, k: int)
    ensures Select(StableSort(ms), KeyIs(k)) == Select(ms, KeyIs(k))
  {
    FilterCommutesWithSort(ms, KeyIs(k));
    SelectMembers(ms, KeyIs(k));
    EqualKeysStay(Select(ms, KeyIs(k)), k);
  }

  ghost predicate SameByKey(xs: seq<Definition>, ys: seq<Definition>) {
    forall k :: Select(xs, KeyIs(k)) == Select(ys, KeyIs(k))
  }

  /** Sortedness and stability pin the result down: there is no other such arrangement. */
  lemma {:induction false} StableSortUnique(xs: seq<Definition>, ys: seq<Definition>)
    requires Sorted(xs) && Sorted(ys) && SameByKey(xs, ys)
    ensures xs == ys
  {
    if xs != [] || ys != [] {
      FirstKeyBounds(xs, ys);
      FirstKeyBounds(ys, xs);
      var k := Key(xs[0]);
      assert Select(xs, KeyIs(k)) == [xs[0]] + Select(xs[1..], KeyIs(k));
      assert Select(ys, KeyIs(k)) == [ys[0]] + Select(ys[1..], KeyIs(k));
      forall j
        ensures Select(xs[1..], KeyIs(j)) == Select(ys[1..], KeyIs(j))
      {
        assert Select(xs, KeyIs(j)) == Select(ys, KeyIs(j));
        if j == k {
          assert Select(xs, KeyIs(k))[1..] == Select(xs[1..], KeyIs(k));
        }
      }
      StableSortUnique(xs[1..], ys[1..]);
    }
  }

  lemma FirstKeyBounds(xs: seq<Definition>, ys: seq<Definition>)
    requires Sorted(xs) && Sorted(ys) && SameByKey(xs, ys)
    ensures ys != [] ==> xs != [] && Key(xs[0]) <= Key(ys[0])
  {
    if ys != [] {
      var k := Key(ys[0]);
      SelectMembers(ys, KeyIs(k));
      SelectMembers(xs, KeyIs(k));
      assert ys[0] in Select(ys, KeyIs(k));
      assert ys[0] in Select(xs, KeyIs(k));
      assert ys[0] in xs;
    }
  }

  /** What a phase and step runs is the stable sort of that phase and step's loaded definitions alone. */
  lemma SelectionIsOwnSort(ms: seq<Definition>, phase: string, step: string)
    ensures Select(StableSort(Select(ms, IsLoaded)), AtStep(phase, step))
         == StableSort(Select(Select(ms, IsLoaded), AtStep(phase, step)))
  {
    FilterCommutesWithSort(Select(ms, IsLoaded), AtStep(phase, step));
  }

  // ------------------------------------------------------- unset priority last?

  predicate IsUnset(mw: Definition) {
    !(mw.Definition? && mw.priority.Int?)
  }

  ghost predicate UnsetLast(ms: seq<Definition>) {
    forall i, j :: 0 <= i < j < |ms| && IsUnset(ms[i]) ==> IsUnset(ms[j])
  }

  /** No explicit priority competes with the default: below it, or equal and listed earlier. */
  ghost predicate NoneReachesDefault(ms: seq<Definition>) {
    forall i, j :: 0 <= i < |ms| && 0 <= j < |ms| && IsUnset(ms[i]) && !IsUnset(ms[j]) ==>
      (Key(ms[j]) < MAX_SAFE_INTEGER || (Key(ms[j]) == MAX_SAFE_INTEGER && j < i))
  }

  ghost predicate HasUnset(ms: seq<Definition>) {
    exists m :: m in ms && IsUnset(m)
  }

  ghost predicate ExceedsDefault(ms: seq<Definition>) {
    exists m :: m in ms && !IsUnset(m) && Key(m) > MAX_SAFE_INTEGER
  }

  ghost predicate AllUnset(ms: seq<Definition>) {
    forall m :: m in ms ==> IsUnset(m)
  }

  /** What the new definition must respect for the unset ones to stay last. */
  ghost predicate Fits(mw: Definition, ms: seq<Definition>) {
    if IsUnset(mw) then !ExceedsDefault(ms) else Key(mw) < MAX_SAFE_INTEGER || !HasUnset(ms)
  }

  lemma {:induction false} UnsetLastInsert(mw: Definition, ms: seq<Definition>)
    requires Sorted(ms)
    ensures UnsetLast(Insert(mw, ms)) <==> UnsetLast(ms) && Fits(mw, ms)
  {
    if ms == [] {
      UnsetLastCons(mw, []);
    } else if Key(ms[0]) > Key(mw) {
      UnsetLastCons(mw, ms);
      FitsFront(mw, ms);
    } else {
      var x, rest := ms[0], ms[1..];
      UnsetLastInsert(mw, rest);
      assert ms == [x] + rest;
      UnsetLastCons(x, rest);
      UnsetLastCons(x, Insert(mw, rest));
      FitsBehind(mw, x, rest);
    }
  }

  lemma FitsFront(mw: Definition, ms: seq<Definition>)
    requires Sorted(ms) && ms != [] && Key(ms[0]) > Key(mw)
    ensures Fits(mw, ms) <==> (IsUnset(mw) ==> AllUnset(ms))
  {
    HeadIsLeast(ms);
    assert ms[0] in ms;
  }

  lemma FitsBehind(mw: Definition, x: Definition, rest: seq<Definition>)
    requires Key(x) <= Key(mw)
    ensures Fits(mw, rest) && (IsUnset(x) ==> AllUnset(rest)) && (IsUnset(x) ==> IsUnset(mw))
       <==> Fits(mw, [x] + rest) && (IsUnset(x) ==> AllUnset(rest))
    ensures AllUnset(Insert(mw, rest)) <==> IsUnset(mw) && AllUnset(rest)
  {
    var ms := [x] + rest;
    assert HasUnset(ms) <==> IsUnset(x) || HasUnset(rest) by {
      assert x in ms;
    }
    assert ExceedsDefault(ms) <==> (!IsUnset(x) && Key(x) > MAX_SAFE_INTEGER) || ExceedsDefault(rest) by {
      assert x in ms;
    }
    assert mw in Insert(mw, rest);
  }

  lemma UnsetLastCons(mw: Definition, ms: seq<Definition>)
    ensures UnsetLast([mw] + ms) <==> UnsetLast(ms) && (IsUnset(mw) ==> AllUnset(ms))
  {
    var r := [mw] + ms;
    assert forall i :: 0 <= i < |ms| ==> r[i + 1] == ms[i];
    if UnsetLast(r) {
      forall i, j | 0 <= i < j < |ms| && IsUnset(ms[i])
        ensures IsUnset(ms[j])
      {
        assert r[i + 1] == ms[i] && r[j + 1] == ms[j];
      }
      forall m | m in ms && IsUnset(mw)
        ensures IsUnset(m)
      {
        var i :| 0 <= i < |ms| && ms[i] == m;
        assert r[0] == mw && r[i + 1] == m;
      }
    }
  }

  lemma NoneReachesDefaultSnoc(ms: seq<Definition>, mw: Definition)
    ensures NoneReachesDefault(ms + [mw]) <==>
              NoneReachesDefault(ms) && Fits(mw, ms)
  {
    var all, n := ms + [mw], |ms|;
    assert all[n] == mw && forall i :: 0 <= i < n ==> all[i] == ms[i];
    if NoneReachesDefault(all) {
      forall i, j | 0 <= i < n && 0 <= j < n && IsUnset(ms[i]) && !IsUnset(ms[j])
        ensures Key(ms[j]) < MAX_SAFE_INTEGER || (Key(ms[j]) == MAX_SAFE_INTEGER && j < i)
      {
        assert all[i] == ms[i] && all[j] == ms[j];
      }
      if IsUnset(mw) {
        forall m | m in ms && !IsUnset(m)
          ensures Key(m) <= MAX_SAFE_INTEGER
        {
          var j :| 0 <= j < n && ms[j] == m;
          assert all[j] == m && IsUnset(all[n]);
        }
      } else if Key(mw) >= MAX_SAFE_INTEGER {
        forall m | m in ms
          ensures !IsUnset(m)
        {
          var i :| 0 <= i < n && ms[i] == m;
          assert all[i] == m && !IsUnset(all[n]);
        }
      }
    }
  }

  /** Definitions without a priority run last exactly when no explicit priority reaches the default one. */
  lemma {:induction false} UnsetLastIff(ms: seq<Definition>)
    ensures UnsetLast(StableSort(ms)) <==> NoneReachesDefault(ms)
  {
    if ms != [] {
      var rest, last := ms[..|ms| - 1], ms[|ms| - 1];
      assert ms == rest + [last];
      UnsetLastIff(rest);
      SortSorts(rest);
      UnsetLastInsert(last, StableSort(rest));
      NoneReachesDefaultSnoc(rest, last);
    }
  }

  // --------------------------------------------------------------- what is loaded

  /** A definition is loaded exactly if its phase and step are known, its handler takes at least three arguments, its priority is none or not negative, and it is not disabled. */
  lemma LoadedIff(mw: Definition, ms: seq<Definition>)
    ensures mw in StableSort(Select(ms, IsLoaded)) <==>
              && mw in ms && mw.Definition?
              && (mw.phase == "before" || mw.phase == "after")
              && (mw.step == "parsing" || mw.step == "signatureVerification" || mw.step == "trustVerification"
                  || mw.step == "onArtifact" || mw.step == "onError")
              && mw.handlerArity.Some? && mw.handlerArity.value >= 3
              && (mw.priority.Unset? || (mw.priority.Int? && mw.priority.n >= 0))
              && (mw.enabled.None? || mw.enabled.value)
  {
    SortedHas(Select(ms, IsLoaded), mw);
    SelectedIff(ms, IsLoaded, mw);
    IsLoadedIff(mw);
  }

  lemma SortedHas(ms: seq<Definition>, mw: Definition)
    ensures mw in StableSort(ms) <==> mw in ms
  {
    SortSorts(ms);
    assert mw in StableSort(ms) <==> mw in multiset(StableSort(ms));
    assert mw in ms <==> mw in multiset(ms);
  }

  lemma IsLoadedIff(mw: Definition)
    ensures IsLoaded(mw) <==>
              && mw.Definition?
              && (mw.phase == "before" || mw.phase == "after")
              && (mw.step == "parsing" || mw.step == "signatureVerification" || mw.step == "trustVerification"
                  || mw.step == "onArtifact" || mw.step == "onError")
              && mw.handlerArity.Some? && mw.handlerArity.value >= 3
              && (mw.priority.Unset? || (mw.priority.Int? && mw.priority.n >= 0))
              && (mw.enabled.None? || mw.enabled.value)
  {
    if mw.Definition? {
      assert mw.phase in PHASES <==> mw.phase == "before" || mw.phase == "after";
      StepIsKnown(mw.step);
    }
  }

  lemma StepIsKnown(step: string)
    ensures step in STEPS <==>
              || step == "parsing" || step == "signatureVerification" || step == "trustVerification"
              || step == "onArtifact" || step == "onError"
  {
  }

  lemma {:induction false} SelectedIff(ms: seq<Definition>, q: Definition -> bool, mw: Definition)
    ensures mw in Select(ms, q) <==> mw in ms && q(mw)
  {
    if ms != [] {
      SelectedIff(ms[1..], q, mw);
      assert ms == [ms[0]] + ms[1..];
    }
  }

  /** Of two loaded definitions the one with the lower priority runs first, and one without a priority counts as the largest safe integer. */
  lemma LowerPriorityFirst(ms: seq<Definition>, i: nat, j: nat)
    requires var sorted := StableSort(Select(ms, IsLoaded)); i < j < |sorted|
    ensures var sorted := StableSort(Select(ms, IsLoaded));
            var a, b := sorted[i], sorted[j];
            && a.Definition? && b.Definition?
            && (a.priority.Int? && b.priority.Int? ==> a.priority.n <= b.priority.n)
            && (a.priority.Unset? && b.priority.Int? ==> b.priority.n >= 9007199254740991)
            && (a.priority.Int? && b.priority.Unset? ==> a.priority.n <= 9007199254740991)
  {
    var sorted := StableSort(Select(ms, IsLoaded));
    SortSorts(Select(ms, IsLoaded));
    assert sorted[i] in sorted && sorted[j] in sorted;
    LoadedIff(sorted[i], ms);
    LoadedIff(sorted[j], ms);
    assert Key(sorted[i]) <= Key(sorted[j]);
  }

  /** A phase and step select the definitions that name them, and no others. */
  lemma StepSelects(ms: seq<Definition>, phase: string, step: string, mw: Definition)
    ensures mw in Select(ms, AtStep(phase, step)) <==> mw in ms && mw.Definition? && mw.phase == phase && mw.step == step
  {
    SelectedIff(ms, AtStep(phase, step), mw);
  }
}
