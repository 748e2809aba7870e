/** What the getter of `signals.ts` computes and what it costs, whichever
    branch it takes: the value a cell denotes, the `calculate` calls one read
    makes, and the subscriptions a read inside an effect leaves behind; then
    the same for a user callback, for `effect(...)` and for a flush. */
module SignalsReads {
  import opened OrderedSet
  import opened SignalsModel

  // ---------------------------------------------------------------------------
  // What a read denotes and what it costs

  /** The value a cell denotes: a plain cell's current value, a derived cell's
      `calculate` applied to the values its dependencies denote. */
  ghost function Eval<V>(st: State<V>, c: SigId): V
    requires Valid(st) && c < |st.cells|
    decreases c, 1, 0
  {
    assert CellOk(st, c);
    match st.cells[c].kind
    case Plain(_) => st.cells[c].value.value
    case Derived(_, combine) => combine(EvalDeps(st, c, 0))
  }

  /** The values denoted by the dependencies of derived cell `c` from `k` on. */
  ghost function EvalDeps<V>(st: State<V>, c: SigId, k: nat): seq<V>
    requires Valid(st) && c < |st.cells| && st.cells[c].kind.Derived? && k <= |st.cells[c].kind.deps|
    decreases c, 0, |st.cells[c].kind.deps| - k
  {
    var deps := st.cells[c].kind.deps;
    if k == |deps| then []
    else
      assert CellOk(st, c);
      [Eval(st, deps[k])] + EvalDeps(st, c, k + 1)
  }

  /** How many times one read of cell `c` calls the `calculate` of cell `x`.
      Every read of a derived cell calculates it exactly once, whichever
      branch of the getter it takes, and every calculation reads each
      dependency once: nothing is memoised, so this is the number of
      dependency paths from `c` down to `x`. */
  ghost function Paths<V>(st: State<V>, c: SigId, x: SigId): nat
    requires Valid(st) && c < |st.cells|
    decreases c, 1, 0
  {
    match st.cells[c].kind
    case Plain(_) => 0
    case Derived(_, _) => (if c == x then 1 else 0) + PathsDeps(st, c, 0, x)
  }

  /** The calls of `x`'s `calculate` made by reading the dependencies of
      derived cell `c` from `k` on. */
  ghost function PathsDeps<V>(st: State<V>, c: SigId, k: nat, x: SigId): nat
    requires Valid(st) && c < |st.cells| && st.cells[c].kind.Derived? && k <= |st.cells[c].kind.deps|
    decreases c, 0, |st.cells[c].kind.deps| - k
  {
    var deps := st.cells[c].kind.deps;
    if k == |deps| then 0
    else
      assert CellOk(st, c);
      Paths(st, deps[k], x) + PathsDeps(st, c, k + 1, x)
  }

  /** Denotations depend only on the kinds and the plain values. */
  lemma {:induction false} EvalSame<V>(st: State<V>, r: State<V>, c: SigId)
    requires Valid(st) && Valid(r) && SameSignals(st, r) && c < |st.cells|
    ensures Eval(r, c) == Eval(st, c)
    decreases c, 1, 0
  {
    if st.cells[c].kind.Derived? {
      EvalDepsSame(st, r, c, 0);
    }
  }

  lemma {:induction false} EvalDepsSame<V>(st: State<V>, r: State<V>, c: SigId, k: nat)
    requires Valid(st) && Valid(r) && SameSignals(st, r) && c < |st.cells|
    requires st.cells[c].kind.Derived? && k <= |st.cells[c].kind.deps|
    ensures r.cells[c].kind == st.cells[c].kind && EvalDeps(r, c, k) == EvalDeps(st, c, k)
    decreases c, 0, |st.cells[c].kind.deps| - k
  {
    if k < |st.cells[c].kind.deps| {
      assert CellOk(st, c);
      EvalSame(st, r, st.cells[c].kind.deps[k]);
      EvalDepsSame(st, r, c, k + 1);
    }
  }

  /** Costs depend only on the kinds. */
  lemma {:induction false} PathsSame<V>(st: State<V>, r: State<V>, c: SigId)
    requires Valid(st) && Valid(r) && SameKinds(st, r) && c < |st.cells|
    ensures forall x :: Paths(r, c, x) == Paths(st, c, x)
    decreases c, 1, 0
  {
    if st.cells[c].kind.Derived? {
      PathsDepsSame(st, r, c, 0);
    }
  }

  lemma {:induction false} PathsDepsSame<V>(st: State<V>, r: State<V>, c: SigId, k: nat)
    requires Valid(st) && Valid(r) && SameKinds(st, r) && c < |st.cells|
    requires st.cells[c].kind.Derived? && k <= |st.cells[c].kind.deps|
    ensures r.cells[c].kind == st.cells[c].kind && forall x :: PathsDeps(r, c, k, x) == PathsDeps(st, c, k, x)
    decreases c, 0, |st.cells[c].kind.deps| - k
  {
    if k < |st.cells[c].kind.deps| {
      assert CellOk(st, c);
      PathsSame(st, r, st.cells[c].kind.deps[k]);
      PathsDepsSame(st, r, c, k + 1);
    }
  }

  /** Every `calculate` counter went up by what one read of `c` costs. */
  ghost predicate CalcAdded<V>(st: State<V>, r: State<V>, c: SigId)
    requires Valid(st) && c < |st.cells|
  {
    && |r.cells| == |st.cells|
    && forall x :: 0 <= x < |st.cells| ==> r.cells[x].calculateCalls == st.cells[x].calculateCalls + Paths(st, c, x)
  }

  /** Every `calculate` counter went up by what reading the dependencies of
      `c` from `k` on costs. */
  ghost predicate CalcAddedDeps<V>(st: State<V>, r: State<V>, c: SigId, k: nat)
    requires Valid(st) && c < |st.cells| && st.cells[c].kind.Derived? && k <= |st.cells[c].kind.deps|
  {
    && |r.cells| == |st.cells|
    && forall x :: 0 <= x < |st.cells| ==> r.cells[x].calculateCalls == st.cells[x].calculateCalls + PathsDeps(st, c, k, x)
  }

  /** No `calculate` counter moved. */
  ghost predicate SameCalcs<V>(st: State<V>, r: State<V>)
  {
    |r.cells| == |st.cells| && forall x :: 0 <= x < |st.cells| ==> r.cells[x].calculateCalls == st.cells[x].calculateCalls
  }

  /** Effect `x` is subscribed to cell `c` and holds the remover for it. */
  ghost predicate SubscribedTo<V>(st: State<V>, c: SigId, x: EffId)
  {
    c < |st.cells| && x in st.cells[c].subscribers && HasRemover(st, c, x)
  }

  /** Subscriptions survive growth. */
  lemma GrowsKeepsSubscribed<V>(st: State<V>, r: State<V>, c: SigId, x: EffId)
    requires Grows(st, r) && SubscribedTo(st, c, x)
    ensures SubscribedTo(r, c, x)
  {
    var i :| 0 <= i < |st.cells[c].subscribers| && st.cells[c].subscribers[i] == x;
  }


  /** The effect on top of the stack. */
  function Top<V>(st: State<V>): EffId
    requires st.stack != []
  {
    st.stack[|st.stack| - 1]
  }

  /** The effect the getters report to: the top of the stack, if any. */
  function Reader<V>(st: State<V>): set<EffId>
  {
    if st.stack == [] then {} else {Top(st)}
  }

  /** The effects that existed in `st` are unchanged in `r`, except those in
      `skip`. */
  ghost predicate KeptExcept<V>(st: State<V>, r: State<V>, skip: set<EffId>)
  {
    |st.effects| <= |r.effects| &&
    forall e :: 0 <= e < |st.effects| && e !in skip ==> r.effects[e] == st.effects[e]
  }

  /** What one getter call of `c` in `st`, ending in `r` with value `v`,
      promises: `v` is what `c` denotes, no plain value changed, the
      `calculate` counters went up by one read of `c`, no effect but the
      reader changed, and the reader is subscribed to `c`. */
  ghost predicate ReadOk<V>(st: State<V>, c: SigId, r: State<V>, v: V)
    requires Valid(st) && c < |st.cells|
  {
    && v == Eval(st, c) && SameSignals(st, r) && CalcAdded(st, r, c)
    && KeptExcept(st, r, Reader(st))
    && (st.stack != [] ==> SubscribedTo(r, c, Top(st)))
  }

  /** The reader is subscribed to every dependency of derived cell `c` from
      `k` on. */
  ghost predicate DepsSubscribed<V>(st: State<V>, r: State<V>, c: SigId, k: nat, x: EffId)
    requires c < |st.cells| && st.cells[c].kind.Derived?
  {
    forall i :: k <= i < |st.cells[c].kind.deps| ==> SubscribedTo(r, st.cells[c].kind.deps[i], x)
  }

  // ---------------------------------------------------------------------------
  // Composing steps

  /** Only cell `c` changed, and not in its kind, its plain value or its
      `calculate` counter. */
  lemma CellSame<V>(st: State<V>, r: State<V>, c: SigId)
    requires |r.cells| == |st.cells| && c < |st.cells|
    requires forall c' :: 0 <= c' < |st.cells| && c' != c ==> r.cells[c'] == st.cells[c']
    requires r.cells[c].kind == st.cells[c].kind && r.cells[c].calculateCalls == st.cells[c].calculateCalls
    requires st.cells[c].kind.Plain? ==> r.cells[c].value == st.cells[c].value
    ensures SameSignals(st, r) && SameCalcs(st, r)
  {
  }

  /** A step that changes no kind, no plain value and no counter, then a read
      of `c`: the read's value and cost, seen from before the step. */
  lemma SameThenRead<V>(st: State<V>, st1: State<V>, r: State<V>, c: SigId, skip: set<EffId>)
    requires Valid(st) && Valid(st1) && c < |st.cells| && SameSignals(st, st1) && SameCalcs(st, st1)
    requires CalcAdded(st1, r, c) && SameSignals(st1, r)
    requires KeptExcept(st, st1, skip) && KeptExcept(st1, r, skip)
    ensures CalcAdded(st, r, c) && SameSignals(st, r) && Eval(st1, c) == Eval(st, c) && KeptExcept(st, r, skip)
  {
    PathsSame(st, st1, c);
    EvalSame(st, st1, c);
  }

  /** A read of `c`, then a step that changes no kind, no plain value and no
      counter. */
  lemma ReadThenSame<V>(st: State<V>, st1: State<V>, r: State<V>, c: SigId, skip: set<EffId>)
    requires Valid(st) && c < |st.cells|
    requires CalcAdded(st, st1, c) && SameSignals(st, st1) && SameSignals(st1, r) && SameCalcs(st1, r)
    requires KeptExcept(st, st1, skip) && KeptExcept(st1, r, skip)
    ensures CalcAdded(st, r, c) && SameSignals(st, r) && KeptExcept(st, r, skip)
  {
  }

  // ---------------------------------------------------------------------------
  // The getter, branch by branch

  /** The getter returns what the cell denotes and costs one read of it,
      inside an effect or not (signals.ts:50-66 and 126-157). */
  lemma {:induction false} GetOk<V>(st: State<V>, c: SigId)
    requires Valid(st) && c < |st.cells| && ReadableBelow(st, c + 1)
    ensures ReadOk(st, c, Get(st, c).0, Get(st, c).1)
    decreases c, 7, 0
  {
    assert CellOk(st, c);
    if st.cells[c].kind.Plain? {
      if st.stack == [] {
        PlainRead(st, c, st, st.cells[c].value.value);
      } else {
        TrackPlainOk(st, c);
      }
    } else if st.stack == [] {
      ColdReadOk(st, c);
    } else {
      TrackDerivedOk(st, c);
    }
  }

  lemma TrackPlainOk<V>(st: State<V>, c: SigId)
    requires Valid(st) && c < |st.cells| && st.cells[c].kind.Plain? && st.stack != []
    requires ReadableBelow(st, c + 1)
    ensures ReadOk(st, c, TrackPlain(st, c).0, TrackPlain(st, c).1)
  {
    var top := st.stack[|st.stack| - 1];
    var (r, v) := TrackPlain(st, c);
    CellSame(st, r, c);
    PlainRead(st, c, r, v);
    assert top in r.cells[c].subscribers;
    assert r.effects[top].removers[|r.effects[top].removers| - 1] == Remover(c, top);
  }

  /** A plain cell denotes its value and costs nothing to read. */
  lemma PlainRead<V>(st: State<V>, c: SigId, r: State<V>, v: V)
    requires Valid(st) && c < |st.cells| && st.cells[c].kind.Plain? && st.cells[c].value == Some(v)
    requires SameCalcs(st, r)
    ensures v == Eval(st, c) && CalcAdded(st, r, c)
  {
  }

  lemma {:induction false} ColdReadOk<V>(st: State<V>, c: SigId)
    requires Valid(st) && c < |st.cells| && st.cells[c].kind.Derived? && st.stack == []
    ensures ReadOk(st, c, ColdRead(st, c).0, ColdRead(st, c).1)
    decreases c, 6, 0
  {
    var (st1, v) := Calculate(st, c);
    CalculateOk(st, c);
    var r := SetCache(st1, c, v);
    CellSame(st1, r, c);
    ReadThenSame(st, st1, r, c, {});
  }

  lemma {:induction false} TrackDerivedOk<V>(st: State<V>, c: SigId)
    requires Valid(st) && c < |st.cells| && st.cells[c].kind.Derived? && st.stack != []
    requires ReadableBelow(st, c + 1)
    ensures ReadOk(st, c, TrackDerived(st, c).0, TrackDerived(st, c).1)
    decreases c, 6, 0
  {
    var top := st.stack[|st.stack| - 1];
    var st1 := AddSubscriber(st, c, top);
    CellSame(st, st1, c);
    var (st2, v) := SubscribedDerived(st1, c);
    SubscribedDerivedOk(st1, c);
    SameThenRead(st, st1, st2, c, {top});
    var st3 := AddRemover(st2, Remover(c, top));
    ReadThenSame(st, st2, st3, c, {top});
    assert TrackDerived(st, c) == (st3, v);
    assert top in Add(st.cells[c].subscribers, top);
  }

  lemma {:induction false} SubscribedDerivedOk<V>(st: State<V>, c: SigId)
    requires Valid(st) && c < |st.cells| && st.cells[c].kind.Derived? && st.cells[c].subscribers != []
    requires ReadableBelow(st, c + 1)
    ensures var r := SubscribedDerived(st, c);
      r.1 == Eval(st, c) && SameSignals(st, r.0) && CalcAdded(st, r.0, c) && KeptExcept(st, r.0, Reader(st))
    decreases c, 5, 1
  {
    if |st.cells[c].subscribers| == 1 {
      ActivateOk(st, c);
    } else {
      TrackedRecomputeOk(st, c);
    }
  }

  lemma {:induction false} ActivateOk<V>(st: State<V>, c: SigId)
    requires Valid(st) && c < |st.cells| && st.cells[c].kind.Derived? && st.cells[c].subscribers != []
    ensures var r := Activate(st, c);
      r.1 == Eval(st, c) && SameSignals(st, r.0) && CalcAdded(st, r.0, c) && KeptExcept(st, r.0, {})
    decreases c, 5, 0
  {
    var (st2, inner) := CreateInner(st, c);
    CreateInnerOk(st, c);
    assert st.cells[c].subscribers[0] in st2.cells[c].subscribers;
    var st3 := SetInnerCleanup(st2, c, inner);
    CellSame(st2, st3, c);
    ReadThenSame(st, st2, st3, c, {});
    assert Activate(st, c) == (st3, st3.cells[c].value.value);
  }

  lemma {:induction false} TrackedRecomputeOk<V>(st: State<V>, c: SigId)
    requires Valid(st) && c < |st.cells| && st.cells[c].kind.Derived? && ReadableBelow(st, c + 1)
    ensures var r := TrackedRecompute(st, c);
      r.1 == Eval(st, c) && SameSignals(st, r.0) && CalcAdded(st, r.0, c) && KeptExcept(st, r.0, Reader(st))
    decreases c, 5, 0
  {
    var (st1, v) := Calculate(st, c);
    CalculateOk(st, c);
    var r := SetCache(st1, c, v);
    CellSame(st1, r, c);
    ReadThenSame(st, st1, r, c, Reader(st));
  }

  /** The inner effect a derived cell creates on its first subscriber caches
      what the cell denotes, leaves every older effect alone, and is
      subscribed to every dependency. */
  lemma {:induction false} CreateInnerOk<V>(st: State<V>, c: SigId)
    requires Valid(st) && c < |st.cells| && st.cells[c].kind.Derived?
    ensures var r := CreateInner(st, c);
      && r.0.cells[c].value == Some(Eval(st, c)) && SameSignals(st, r.0) && CalcAdded(st, r.0, c)
      && KeptExcept(st, r.0, {}) && DepsSubscribed(st, r.0, c, 0, r.1)
    decreases c, 4, 0
  {
    var e := |st.effects|;
    var st1 := Pushed(st, Inner(c));
    InvokeInnerOk(st1, e);
    var st2 := Invoke(st1, e);
    SameThenRead(st, st1, st2, c, {e});
    var r := WithStack(st2, st.stack);
    assert CreateInner(st, c) == (r, e);
  }

  /** One run of derived cell `d`'s inner effect `e`, at its creation or in a
      flush. */
  lemma {:induction false} InvokeInnerOk<V>(st: State<V>, e: EffId)
    requires Valid(st) && e < |st.effects| && st.effects[e].body.Inner?
    requires st.stack == [] || st.stack[|st.stack| - 1] == e
    ensures var d := st.effects[e].body.owner; var r := Invoke(st, e);
      && d < |st.cells| && st.cells[d].kind.Derived?
      && r.cells[d].value == Some(Eval(st, d)) && SameSignals(st, r) && CalcAdded(st, r, d)
      && KeptExcept(st, r, {e}) && (st.stack != [] ==> DepsSubscribed(st, r, d, 0, e))
    decreases InvokeRank(st, e), 3, 1
  {
    var d := st.effects[e].body.owner;
    var st1 := Counted(st, e);
    InvokeSplit(st, e, st1);
    CallbackInner(st1, e, d);
    InnerBodyOk(st1, d);
    InvokeInnerStep(st, e, d, st1, InnerBody(st1, d));
  }

  /** The counted call, then the inner effect's callback. */
  lemma InvokeInnerStep<V>(st: State<V>, e: EffId, d: SigId, st1: State<V>, r: State<V>)
    requires Valid(st) && Valid(st1) && e < |st.effects| && d < |st.cells| && st.cells[d].kind.Derived?
    requires st1.cells == st.cells && st1.stack == st.stack && |st1.effects| == |st.effects|
    requires forall e' :: 0 <= e' < |st.effects| && e' != e ==> st1.effects[e'] == st.effects[e']
    requires st.stack == [] || st.stack[|st.stack| - 1] == e
    requires SameSignals(st1, r) && r.cells[d].value == Some(Eval(st1, d)) && CalcAdded(st1, r, d)
    requires KeptExcept(st1, r, Reader(st1)) && (st1.stack != [] ==> DepsSubscribed(st1, r, d, 0, Top(st1)))
    ensures r.cells[d].value == Some(Eval(st, d)) && SameSignals(st, r) && CalcAdded(st, r, d)
    ensures KeptExcept(st, r, {e}) && (st.stack != [] ==> DepsSubscribed(st, r, d, 0, e))
  {
    CellSame(st, st1, d);
    SameThenRead(st, st1, r, d, {e});
  }

  lemma {:induction false} InnerBodyOk<V>(st: State<V>, d: SigId)
    requires Valid(st) && d < |st.cells| && st.cells[d].kind.Derived? && ReadableBelow(st, d)
    ensures var r := InnerBody(st, d);
      && r.cells[d].value == Some(Eval(st, d)) && SameSignals(st, r) && CalcAdded(st, r, d)
      && KeptExcept(st, r, Reader(st)) && (st.stack != [] ==> DepsSubscribed(st, r, d, 0, Top(st)))
    decreases d, 2, 0
  {
    var (st1, v) := Calculate(st, d);
    CalculateOk(st, d);
    var st2 := CacheIfChanged(st1, d, v);
    CellSame(st1, st2, d);
    var r := Schedule(st2, d);
    ReadThenSame(st, st1, r, d, Reader(st));
    assert InnerBody(st, d) == r;
    if st.stack != [] {
      DepsKept(st, st1, r, d);
    }
  }

  /** Subscriptions to the dependencies survive a step that only grows. */
  lemma DepsKept<V>(st: State<V>, st1: State<V>, r: State<V>, d: SigId)
    requires d < |st.cells| && st.cells[d].kind.Derived? && st.stack != []
    requires DepsSubscribed(st, st1, d, 0, Top(st)) && Grows(st1, r)
    ensures DepsSubscribed(st, r, d, 0, Top(st))
  {
    forall i | 0 <= i < |st.cells[d].kind.deps|
      ensures SubscribedTo(r, st.cells[d].kind.deps[i], Top(st))
    {
      GrowsKeepsSubscribed(st1, r, st.cells[d].kind.deps[i], Top(st));
    }
  }

  /** `calculate()` returns what the cell denotes, costs one read of it, and
      subscribes the reader to every dependency. */
  lemma {:induction false} CalculateOk<V>(st: State<V>, c: SigId)
    requires Valid(st) && c < |st.cells| && st.cells[c].kind.Derived? && ReadableBelow(st, c)
    ensures var r := Calculate(st, c);
      && r.1 == Eval(st, c) && SameSignals(st, r.0) && CalcAdded(st, r.0, c)
      && KeptExcept(st, r.0, Reader(st)) && (st.stack != [] ==> DepsSubscribed(st, r.0, c, 0, Top(st)))
    decreases c, 1, 0
  {
    var st0 := CountCalculate(st, c);
    NestedReadable(st, st0, c);
    var (st1, vs) := ReadDeps(st0, c, 0);
    ReadDepsOk(st0, c, 0);
    assert Calculate(st, c) == (st1, st.cells[c].kind.combine(vs));
    CalculateStep(st, st0, st1, c, vs);
  }

  /** The counted call, then the reads. */
  lemma CalculateStep<V>(st: State<V>, st0: State<V>, st1: State<V>, c: SigId, vs: seq<V>)
    requires Valid(st) && c < |st.cells| && st.cells[c].kind.Derived? && st0 == CountCalculate(st, c)
    requires vs == EvalDeps(st0, c, 0) && SameSignals(st0, st1) && CalcAddedDeps(st0, st1, c, 0)
    requires KeptExcept(st0, st1, Reader(st0))
    requires st0.stack != [] ==> DepsSubscribed(st0, st1, c, 0, Top(st0))
    ensures st.cells[c].kind.combine(vs) == Eval(st, c) && SameSignals(st, st1) && CalcAdded(st, st1, c)
    ensures KeptExcept(st, st1, Reader(st)) && (st.stack != [] ==> DepsSubscribed(st, st1, c, 0, Top(st)))
  {
    EvalDepsSame(st, st0, c, 0);
    PathsDepsSame(st, st0, c, 0);
  }

  lemma {:induction false} ReadDepsOk<V>(st: State<V>, c: SigId, k: nat)
    requires Valid(st) && c < |st.cells| && st.cells[c].kind.Derived? && ReadableBelow(st, c)
    requires k <= |st.cells[c].kind.deps|
    ensures var r := ReadDeps(st, c, k);
      && r.1 == EvalDeps(st, c, k) && SameSignals(st, r.0) && CalcAddedDeps(st, r.0, c, k)
      && KeptExcept(st, r.0, Reader(st)) && (st.stack != [] ==> DepsSubscribed(st, r.0, c, k, Top(st)))
    decreases c, 0, |st.cells[c].kind.deps| - k
  {
    var deps := st.cells[c].kind.deps;
    if k < |deps| {
      assert CellOk(st, c);
      var r1 := Get(st, deps[k]);
      GetOk(st, deps[k]);
      NestedReadable(st, r1.0, c);
      var r2 := ReadDeps(r1.0, c, k + 1);
      ReadDepsOk(r1.0, c, k + 1);
      assert ReadDeps(st, c, k) == (r2.0, [r1.1] + r2.1);
      ReadDepsStep(st, r1.0, r2.0, c, k, r1.1, r2.1);
    }
  }

  /** One dependency read, then the rest. */
  lemma ReadDepsStep<V>(st: State<V>, st1: State<V>, st2: State<V>, c: SigId, k: nat, v: V, vs: seq<V>)
    requires Valid(st) && c < |st.cells| && st.cells[c].kind.Derived? && k < |st.cells[c].kind.deps|
    requires st.cells[c].kind.deps[k] < c
    requires ReadOk(st, st.cells[c].kind.deps[k], st1, v)
    requires Valid(st1) && st1.stack == st.stack && st1.cells[c].kind == st.cells[c].kind && Grows(st1, st2)
    requires vs == EvalDeps(st1, c, k + 1) && SameSignals(st1, st2) && CalcAddedDeps(st1, st2, c, k + 1)
    requires KeptExcept(st1, st2, Reader(st1))
    requires st1.stack != [] ==> DepsSubscribed(st1, st2, c, k + 1, Top(st1))
    ensures [v] + vs == EvalDeps(st, c, k) && SameSignals(st, st2) && CalcAddedDeps(st, st2, c, k)
    ensures KeptExcept(st, st2, Reader(st)) && (st.stack != [] ==> DepsSubscribed(st, st2, c, k, Top(st)))
  {
    var deps := st.cells[c].kind.deps;
    EvalDepsSame(st, st1, c, k + 1);
    PathsDepsSame(st, st1, c, k + 1);
    if st.stack != [] {
      GrowsKeepsSubscribed(st1, st2, deps[k], Top(st));
    }
  }

  // ---------------------------------------------------------------------------
  // User callbacks and `effect(...)`

  /** The cells a user callback reads. */
  function ReadCells<V>(script: seq<Instr<V>>): set<SigId>
  {
    set k | 0 <= k < |script| && script[k].Read? :: script[k].cell
  }

  /** The calls of `x`'s `calculate` made by the reads of a user callback from
      instruction `i` on. */
  ghost function ScriptPaths<V>(st: State<V>, script: seq<Instr<V>>, i: nat, x: SigId): nat
    requires Valid(st) && ScriptOk(st, script) && i <= |script|
    decreases |script| - i
  {
    if i == |script| then 0
    else
      var here := match script[i]
        case Read(c) => assert script[i].Read? ==> c < |st.cells|; Paths(st, c, x)
        case Write(_, _) => 0;
      here + ScriptPaths(st, script, i + 1, x)
  }

  /** The calls of `x`'s `calculate` made by one run of effect `e`. */
  ghost function BodyPaths<V>(st: State<V>, e: EffId, x: SigId): nat
    requires Valid(st) && e < |st.effects|
  {
    assert EffectOk(st, e);
    match st.effects[e].body
    case User(script) => ScriptPaths(st, script, 0, x)
    case Inner(d) => Paths(st, d, x)
  }

  lemma {:induction false} ScriptPathsSame<V>(st: State<V>, r: State<V>, script: seq<Instr<V>>, i: nat)
    requires Valid(st) && Valid(r) && SameKinds(st, r) && ScriptOk(st, script) && ScriptOk(r, script)
    requires i <= |script|
    ensures forall x :: ScriptPaths(r, script, i, x) == ScriptPaths(st, script, i, x)
    decreases |script| - i
  {
    if i < |script| {
      if script[i].Read? {
        assert script[i].Read? ==> script[i].cell < |st.cells|;
        PathsSame(st, r, script[i].cell);
      }
      ScriptPathsSame(st, r, script, i + 1);
    }
  }

  lemma BodyPathsSame<V>(st: State<V>, r: State<V>, e: EffId)
    requires Valid(st) && Valid(r) && SameKinds(st, r) && e < |st.effects| && e < |r.effects|
    requires r.effects[e].body == st.effects[e].body
    ensures forall x :: BodyPaths(r, e, x) == BodyPaths(st, e, x)
  {
    assert EffectOk(st, e) && EffectOk(r, e);
    match st.effects[e].body
    case User(script) => ScriptPathsSame(st, r, script, 0);
    case Inner(d) => PathsSame(st, r, d);
  }

  /** Every `calculate` counter went up by what the reads of `script` from
      `i` on cost. */
  ghost predicate ScriptAdded<V>(st: State<V>, r: State<V>, script: seq<Instr<V>>, i: nat)
    requires Valid(st) && ScriptOk(st, script) && i <= |script|
  {
    && |r.cells| == |st.cells|
    && forall x :: 0 <= x < |st.cells| ==> r.cells[x].calculateCalls == st.cells[x].calculateCalls + ScriptPaths(st, script, i, x)
  }

  /** One getter or setter call of a user callback. */
  lemma StepOk<V>(st: State<V>, instr: Instr<V>)
    requires Valid(st) && UserOnTop(st)
    requires match instr
             case Read(c) => c < |st.cells|
             case Write(c, _) => c < |st.cells| && st.cells[c].kind.Plain?
    ensures var r := Step(st, instr);
      && SameKinds(st, r) && KeptExcept(st, r, Reader(st))
      && (instr.Read? ==> CalcAdded(st, r, instr.cell) && (st.stack != [] ==> SubscribedTo(r, instr.cell, Top(st))))
      && (instr.Write? ==> SameCalcs(st, r))
  {
    match instr
    case Read(c) => GetOk(st, c);
    case Write(c, v) =>
  }

  /** What a user callback from instruction `i` on, ending in `r`, promises:
      no kind changes, the reads cost what they cost one by one, no effect
      but the reader changes, and inside an effect the reader ends subscribed
      to every cell it read. */
  ghost predicate ScriptRan<V>(st: State<V>, script: seq<Instr<V>>, i: nat, r: State<V>)
    requires Valid(st) && ScriptOk(st, script) && i <= |script|
  {
    && SameKinds(st, r) && ScriptAdded(st, r, script, i) && KeptExcept(st, r, Reader(st))
    && (st.stack != [] ==> forall k :: i <= k < |script| && script[k].Read? ==> SubscribedTo(r, script[k].cell, Top(st)))
  }

  lemma {:induction false} RunScriptOk<V>(st: State<V>, script: seq<Instr<V>>, i: nat)
    requires Valid(st) && ScriptOk(st, script) && i <= |script| && UserOnTop(st)
    ensures ScriptRan(st, script, i, RunScript(st, script, i))
    decreases |script| - i, 1
  {
    if i < |script| {
      RunScriptNext(st, script, i);
    } else {
      RunScriptEnd(st, script);
    }
  }

  lemma RunScriptEnd<V>(st: State<V>, script: seq<Instr<V>>)
    requires Valid(st) && ScriptOk(st, script) && UserOnTop(st)
    ensures ScriptRan(st, script, |script|, RunScript(st, script, |script|))
  {
  }

  /** One instruction, then the rest of the callback. */
  lemma {:induction false} RunScriptNext<V>(st: State<V>, script: seq<Instr<V>>, i: nat)
    requires Valid(st) && ScriptOk(st, script) && i < |script| && UserOnTop(st)
    ensures ScriptRan(st, script, i, RunScript(st, script, i))
    decreases |script| - i, 0
  {
    var st1 := RunScriptFirst(st, script, i);
    RunScriptOk(st1, script, i + 1);
    RunScriptStep(st, st1, RunScript(st1, script, i + 1), script, i);
  }

  /** The first instruction of a callback from `i` on, and what it leaves. */
  lemma RunScriptFirst<V>(st: State<V>, script: seq<Instr<V>>, i: nat) returns (st1: State<V>)
    requires Valid(st) && ScriptOk(st, script) && i < |script| && UserOnTop(st)
    ensures Valid(st1) && ScriptOk(st1, script) && UserOnTop(st1) && st1.stack == st.stack
    ensures RunScript(st, script, i) == RunScript(st1, script, i + 1)
    ensures script[i].Read? ==> script[i].cell < |st.cells|
    ensures SameKinds(st, st1) && KeptExcept(st, st1, Reader(st))
    ensures script[i].Read? ==> CalcAdded(st, st1, script[i].cell) && (st.stack != [] ==> SubscribedTo(st1, script[i].cell, Top(st)))
    ensures script[i].Write? ==> SameCalcs(st, st1)
  {
    assert script[i].Read? ==> script[i].cell < |st.cells|;
    st1 := Step(st, script[i]);
    StepOk(st, script[i]);
    ExtendsKeepsScript(st, st1, script);
  }

  /** One instruction, then the rest. */
  lemma RunScriptStep<V>(st: State<V>, st1: State<V>, r: State<V>, script: seq<Instr<V>>, i: nat)
    requires Valid(st) && Valid(st1) && ScriptOk(st, script) && ScriptOk(st1, script) && i < |script|
    requires script[i].Read? ==> script[i].cell < |st.cells|
    requires SameKinds(st, st1) && KeptExcept(st, st1, Reader(st)) && st1.stack == st.stack
    requires script[i].Read? ==> CalcAdded(st, st1, script[i].cell) && (st.stack != [] ==> SubscribedTo(st1, script[i].cell, Top(st)))
    requires script[i].Write? ==> SameCalcs(st, st1)
    requires ScriptRan(st1, script, i + 1, r) && Grows(st1, r)
    ensures ScriptRan(st, script, i, r)
  {
    ScriptPathsSame(st, st1, script, i + 1);
    if st.stack != [] && script[i].Read? {
      GrowsKeepsSubscribed(st1, r, script[i].cell, Top(st));
    }
  }

  /** One run of effect `e`, at its creation or in a flush: no kind changes,
      the counters go up by what its callback's reads cost, no other effect
      changes, and at its creation a user effect ends subscribed to every
      cell its callback read. */
  lemma InvokeOk<V>(st: State<V>, e: EffId)
    requires Valid(st) && e < |st.effects|
    requires st.stack == [] || st.stack[|st.stack| - 1] == e
    ensures var r := Invoke(st, e);
      && SameKinds(st, r) && KeptExcept(st, r, {e})
      && (forall x :: 0 <= x < |st.cells| ==> r.cells[x].calculateCalls == st.cells[x].calculateCalls + BodyPaths(st, e, x))
      && (st.stack != [] && st.effects[e].body.User? ==>
            forall c :: c in ReadCells(st.effects[e].body.script) ==> SubscribedTo(r, c, e))
  {
    assert EffectOk(st, e);
    match st.effects[e].body
    case Inner(d) =>
      InvokeInnerOk(st, e);
    case User(script) =>
      var st1 := Counted(st, e);
      InvokeSplit(st, e, st1);
      CallbackUser(st1, e, script);
      RunScriptOk(st1, script, 0);
      InvokeUserStep(st, e, script, st1, RunScript(st1, script, 0));
  }

  /** The counted call, then the user callback. */
  lemma InvokeUserStep<V>(st: State<V>, e: EffId, script: seq<Instr<V>>, st1: State<V>, r: State<V>)
    requires Valid(st) && Valid(st1) && e < |st.effects| && st.effects[e].body == User(script)
    requires ScriptOk(st, script) && ScriptOk(st1, script)
    requires st1.cells == st.cells && st1.stack == st.stack && |st1.effects| == |st.effects|
    requires forall e' :: 0 <= e' < |st.effects| && e' != e ==> st1.effects[e'] == st.effects[e']
    requires st.stack == [] || st.stack[|st.stack| - 1] == e
    requires ScriptRan(st1, script, 0, r)
    ensures SameKinds(st, r) && KeptExcept(st, r, {e})
    ensures forall x :: 0 <= x < |st.cells| ==> r.cells[x].calculateCalls == st.cells[x].calculateCalls + BodyPaths(st, e, x)
    ensures st.stack != [] ==> forall c :: c in ReadCells(script) ==> SubscribedTo(r, c, e)
  {
    ScriptPathsSame(st, st1, script, 0);
    assert EffectOk(st, e);
  }

  /** `effect(callback)`: the callback's reads cost what they cost, no older
      effect changes, and the new effect is subscribed to every cell its
      callback read, holding the remover for each (signals.ts:98-104). */
  lemma CreateEffectOk<V>(st: State<V>, script: seq<Instr<V>>)
    requires Valid(st) && ScriptOk(st, script)
    ensures var r := CreateEffect(st, script);
      && SameKinds(st, r.0) && ScriptAdded(st, r.0, script, 0) && KeptExcept(st, r.0, {})
      && forall c :: c in ReadCells(script) ==> SubscribedTo(r.0, c, r.1)
  {
    var e := |st.effects|;
    var st1 := Pushed(st, User(script));
    NewEffectValid(st, User(script));
    assert ScriptOk(st1, script) by {
      ShapeKeepsScriptCells(st, st1, script);
    }
    InvokeOk(st1, e);
    var st2 := Invoke(st1, e);
    ScriptPathsSame(st, st1, script, 0);
    assert CreateEffect(st, script) == (WithStack(st2, st.stack), e);
  }

  lemma ShapeKeepsScriptCells<V>(st: State<V>, st1: State<V>, script: seq<Instr<V>>)
    requires ScriptOk(st, script) && st1.cells == st.cells
    ensures ScriptOk(st1, script)
  {
  }

  // ---------------------------------------------------------------------------
  // What a flush costs

  /** The calls of `x`'s `calculate` made by running, once each, the effects
      below `n` whose call counter differs between `st` and `effs`. */
  ghost function RanPaths<V>(st: State<V>, effs: seq<Effect<V>>, x: SigId, n: nat): nat
    requires Valid(st) && n <= |st.effects| && n <= |effs|
  {
    if n == 0 then 0
    else RanPaths(st, effs, x, n - 1) + (if effs[n - 1].calls != st.effects[n - 1].calls then BodyPaths(st, n - 1, x) else 0)
  }

  lemma {:induction false} RanPathsOne<V>(st: State<V>, effs: seq<Effect<V>>, e: EffId, x: SigId, n: nat)
    requires Valid(st) && n <= |st.effects| && n <= |effs| && e < |st.effects|
    requires forall k :: 0 <= k < n && k != e ==> effs[k].calls == st.effects[k].calls
    requires e < |effs| && effs[e].calls != st.effects[e].calls
    ensures RanPaths(st, effs, x, n) == if e < n then BodyPaths(st, e, x) else 0
  {
    if n > 0 {
      RanPathsOne(st, effs, e, x, n - 1);
    }
  }

  lemma {:induction false} RanPathsTrans<V>(a: State<V>, b: State<V>, effs: seq<Effect<V>>, x: SigId, n: nat)
    requires Valid(a) && Valid(b) && SameKinds(a, b) && n <= |a.effects| && n <= |b.effects| && n <= |effs|
    requires forall k :: 0 <= k < n ==> b.effects[k].body == a.effects[k].body
    requires forall k :: 0 <= k < n ==>
      a.effects[k].calls <= b.effects[k].calls <= effs[k].calls <= a.effects[k].calls + 1
    ensures RanPaths(a, effs, x, n) == RanPaths(a, b.effects, x, n) + RanPaths(b, effs, x, n)
  {
    if n > 0 {
      RanPathsTrans(a, b, effs, x, n - 1);
      BodyPathsSame(a, b, n - 1);
    }
  }

  /** Every `calculate` counter went up by what the effects whose call
      counter moved cost, one run each. */
  ghost predicate CostRan<V>(st: State<V>, r: State<V>)
    requires Valid(st) && |st.effects| <= |r.effects|
  {
    && |r.cells| == |st.cells|
    && forall x :: 0 <= x < |st.cells| ==>
         r.cells[x].calculateCalls == st.cells[x].calculateCalls + RanPaths(st, r.effects, x, |st.effects|)
  }

  /** The inner loop over `subs[j..]` of a flush. */
  lemma {:induction false} NotifySetCost<V>(st: State<V>, subs: seq<EffId>, j: nat)
    requires Valid(st) && st.stack == [] && st.queued && j <= |subs|
    requires forall x :: x in subs ==> x < |st.effects|
    ensures CostRan(st, NotifySet(st, subs, j))
    decreases |subs| - j, 1
  {
    if j == |subs| {
      NoneRan(st, NotifySet(st, subs, j));
    } else if subs[j] in st.processed {
      NotifySetSkip(st, subs, j);
    } else {
      NotifySetNext(st, subs, j);
    }
  }

  lemma {:induction false} NotifySetSkip<V>(st: State<V>, subs: seq<EffId>, j: nat)
    requires Valid(st) && st.stack == [] && st.queued && j < |subs| && subs[j] in st.processed
    requires forall x :: x in subs ==> x < |st.effects|
    ensures CostRan(st, NotifySet(st, subs, j))
    decreases |subs| - j, 0
  {
    NotifySetCost(st, subs, j + 1);
  }

  lemma {:induction false} NotifySetNext<V>(st: State<V>, subs: seq<EffId>, j: nat)
    requires Valid(st) && st.stack == [] && st.queued && j < |subs| && subs[j] !in st.processed
    requires forall x :: x in subs ==> x < |st.effects|
    ensures CostRan(st, NotifySet(st, subs, j))
    decreases |subs| - j, 0
  {
    var e := subs[j];
    assert e in subs;
    var st1 := Invoke(st, e);
    InvokeOk(st, e);
    var st2 := MarkProcessed(st1, e);
    NotifySetCost(st2, subs, j + 1);
    assert NotifySet(st, subs, j) == NotifySet(st2, subs, j + 1);
    NotifySetRun(st, e, st1, st2, subs, j, NotifySet(st2, subs, j + 1));
  }

  /** No counter moved, so nothing ran. */
  lemma NoneRan<V>(st: State<V>, r: State<V>)
    requires Valid(st) && |st.effects| <= |r.effects| && r.cells == st.cells
    requires forall k :: 0 <= k < |st.effects| ==> r.effects[k].calls == st.effects[k].calls
    ensures CostRan(st, r)
  {
    forall x | 0 <= x < |st.cells| ensures RanPaths(st, r.effects, x, |st.effects|) == 0 {
      RanPathsNone(st, r.effects, x, |st.effects|);
    }
  }

  /** Effect `e` ran, then the rest of the loop. */
  lemma NotifySetRun<V>(st: State<V>, e: EffId, st1: State<V>, st2: State<V>, subs: seq<EffId>, j: nat, r: State<V>)
    requires Valid(st) && Valid(st2) && e < |st.effects| && st.stack == [] && Invoked(st, e, st1)
    requires SameKinds(st, st1) && st2.cells == st1.cells && st2.effects == st1.effects && e in st2.processed
    requires forall x :: 0 <= x < |st.cells| ==> st1.cells[x].calculateCalls == st.cells[x].calculateCalls + BodyPaths(st, e, x)
    requires FlushedSet(st2, subs, j, r) && CostRan(st2, r)
    ensures CostRan(st, r)
  {
    forall x | 0 <= x < |st.cells|
      ensures r.cells[x].calculateCalls == st.cells[x].calculateCalls + RanPaths(st, r.effects, x, |st.effects|)
    {
      RanPathsTrans(st, st2, r.effects, x, |st.effects|);
      RanPathsOne(st, st2.effects, e, x, |st.effects|);
    }
  }

  lemma {:induction false} RanPathsNone<V>(st: State<V>, effs: seq<Effect<V>>, x: SigId, n: nat)
    requires Valid(st) && n <= |st.effects| && n <= |effs|
    requires forall k :: 0 <= k < n ==> effs[k].calls == st.effects[k].calls
    ensures RanPaths(st, effs, x, n) == 0
  {
    if n > 0 {
      RanPathsNone(st, effs, x, n - 1);
    }
  }

  /** The outer loop of a flush from awaiting set `i` on. */
  lemma {:induction false} NotifyFromCost<V>(st: State<V>, i: nat)
    requires Valid(st) && st.stack == [] && st.queued && i <= |st.awaiting|
    ensures CostRan(st, NotifyFrom(st, i))
    decreases |st.cells| - i, 1
  {
    if i == |st.awaiting| {
      NoneRan(st, NotifyFrom(st, i));
    } else {
      NotifyFromNext(st, i);
    }
  }

  lemma {:induction false} NotifyFromNext<V>(st: State<V>, i: nat)
    requires Valid(st) && st.stack == [] && st.queued && i < |st.awaiting|
    ensures CostRan(st, NotifyFrom(st, i))
    decreases |st.cells| - i, 0
  {
    BoundedLength(st.awaiting, |st.cells|);
    var c := st.awaiting[i];
    assert c in st.awaiting;
    assert CellOk(st, c);
    var st1 := NotifySet(st, st.cells[c].subscribers, 0);
    NotifySetCost(st, st.cells[c].subscribers, 0);
    NotifyFromCost(st1, i + 1);
    assert NotifyFrom(st, i) == NotifyFrom(st1, i + 1);
    CostTrans(st, st1, NotifyFrom(st1, i + 1), st.cells[c].subscribers, i);
  }

  lemma CostTrans<V>(st: State<V>, st1: State<V>, r: State<V>, subs: seq<EffId>, i: nat)
    requires Valid(st) && Valid(st1) && FlushedSet(st, subs, 0, st1) && FlushedFrom(st, i, r) && FlushedFrom(st1, i + 1, r)
    requires CostRan(st, st1) && CostRan(st1, r)
    ensures CostRan(st, r)
  {
    forall x | 0 <= x < |st.cells|
      ensures r.cells[x].calculateCalls == st.cells[x].calculateCalls + RanPaths(st, r.effects, x, |st.effects|)
    {
      RanPathsTrans(st, st1, r.effects, x, |st.effects|);
    }
  }

  /** `notify()`: every `calculate` counter went up by what the effects that
      ran in the flush cost, each run once (signals.ts:9-22). */
  lemma NotifyCost<V>(st: State<V>)
    requires Valid(st) && st.stack == [] && st.queued && st.processed == {}
    ensures CostRan(st, Notify(st))
  {
    NotifyFromCost(st, 0);
  }
}
