/** The derived-signal tests of `src/signal/signals.test.js` as scenario lemmas over
    `signals.ts`: which effects an `effect(...)` over a chain of derived cells
    creates, what it and the next flush cost in `calculate` calls, and how the
    upstream `onSubscribe` hook sees a derived cell gain and lose its only
    subscriber. */
module SignalsScenarios {
  import opened OrderedSet
  import opened SignalsModel
  import opened SignalsReads
  import opened SignalsProps

  // ---------------------------------------------------------------------------
  // Reads that create inner effects

  /** `calculate()` of a derived cell whose one dependency is plain, made
      inside an effect: it creates no effect and subscribes the reader to
      the dependency. */
  lemma CalculateOverPlain<V>(st: State<V>, d: SigId, c: SigId)
    requires Valid(st) && d < |st.cells| && st.cells[d].kind.Derived? && st.cells[d].kind.deps == [c]
    requires c < |st.cells| && st.cells[c].kind.Plain? && st.stack != [] && ReadableBelow(st, d)
    ensures var r := Calculate(st, d).0;
      && |r.effects| == |st.effects| && SubscribedTo(r, c, Top(st))
  {
    var st0 := CountCalculate(st, d);
    NestedReadable(st, st0, d);
    assert Calculate(st, d).0 == ReadDeps(st0, d, 0).0;
    OneDepRead(st0, d, c);
    assert Get(st0, c) == TrackPlain(st0, c);
    TrackPlainSubscribed(st0, c);
  }

  /** The dependency reads of a `calculate()` with one dependency are one
      read of it. */
  lemma OneDepRead<V>(st: State<V>, d: SigId, c: SigId)
    requires Valid(st) && d < |st.cells| && st.cells[d].kind.Derived? && st.cells[d].kind.deps == [c]
    requires ReadableBelow(st, d)
    ensures c < d && ReadableBelow(st, c + 1)
    ensures ReadDeps(st, d, 0).0 == Get(st, c).0
  {
    assert CellOk(st, d) && st.cells[d].kind.deps[0] == c;
    var st1 := Get(st, c).0;
    NestedReadable(st, st1, d);
    assert ReadDeps(st1, d, 1).0 == st1;
  }

  /** A tracked read of a plain cell creates no effect and subscribes the
      reader. */
  lemma TrackPlainSubscribed<V>(st: State<V>, c: SigId)
    requires Valid(st) && c < |st.cells| && st.cells[c].kind.Plain? && st.stack != []
    requires ReadableBelow(st, c + 1)
    ensures |TrackPlain(st, c).0.effects| == |st.effects| && SubscribedTo(TrackPlain(st, c).0, c, Top(st))
  {
    var r := TrackPlain(st, c).0;
    var rs := r.effects[Top(st)].removers;
    assert rs == st.effects[Top(st)].removers + [Remover(c, Top(st))];
    assert rs[|rs| - 1] == Remover(c, Top(st));
  }

  /** The callback of the inner effect of such a derived cell: it creates no
      effect and subscribes the running effect to the dependency. */
  lemma InnerBodyOverPlain<V>(st: State<V>, d: SigId, c: SigId)
    requires Valid(st) && d < |st.cells| && st.cells[d].kind.Derived? && st.cells[d].kind.deps == [c]
    requires c < |st.cells| && st.cells[c].kind.Plain? && st.stack != [] && ReadableBelow(st, d)
    ensures |InnerBody(st, d).effects| == |st.effects| && SubscribedTo(InnerBody(st, d), c, Top(st))
  {
    var (st1, v) := Calculate(st, d);
    CalculateOverPlain(st, d, c);
    OneDepRead(st, d, c);
    var st2 := CacheIfChanged(st1, d, v);
    assert st2.cells[c] == st1.cells[c];
  }

  /** The inner effect of derived cell `d`, whose one dependency `c` is
      plain: exactly one effect is created, and it ends subscribed to `c`. */
  lemma CreateInnerOverPlain<V>(st: State<V>, d: SigId, c: SigId)
    requires Valid(st) && d < |st.cells| && st.cells[d].kind.Derived? && st.cells[d].kind.deps == [c]
    requires c < |st.cells| && st.cells[c].kind.Plain?
    ensures var r := CreateInner(st, d);
      && |r.0.effects| == |st.effects| + 1 && SubscribedTo(r.0, c, r.1)
  {
    var st2 := CreateInnerIs(st, d);
    InnerBodyOverPlain(st2, d, c);
  }

  /** `CreateInner` is the callback of the new inner effect, run once in the
      state `st2` where it is counted and on top of the stack. */
  lemma CreateInnerIs<V>(st: State<V>, d: SigId) returns (st2: State<V>)
    requires Valid(st) && d < |st.cells| && st.cells[d].kind.Derived?
    ensures Valid(st2) && st2.cells == st.cells && |st2.effects| == |st.effects| + 1
    ensures st2.stack == st.stack + [|st.effects|] && ReadableBelow(st2, d)
    ensures st2.effects[..|st.effects|] == st.effects
    ensures st2.effects[|st.effects|] == Effect(Inner(d), [], 1)
    ensures CreateInner(st, d) == (WithStack(InnerBody(st2, d), st.stack), |st.effects|)
  {
    var n := |st.effects|;
    var st1 := Pushed(st, Inner(d));
    st2 := Counted(st1, n);
    InvokeSplit(st1, n, st2);
    CallbackInner(st2, n, d);
    assert st2.effects[..n] == st.effects;
  }

  /** The first read, inside a user effect, of a derived cell whose one
      dependency is plain: exactly one effect is created, the inner effect of
      `d`, which ends subscribed to the dependency, and `d` is enqueued. */
  lemma FirstReadOverPlain<V>(st: State<V>, d: SigId, c: SigId)
    requires Valid(st) && d < |st.cells| && st.cells[d].kind.Derived? && st.cells[d].kind.deps == [c]
    requires c < |st.cells| && st.cells[c].kind.Plain?
    requires st.stack != [] && UserOnTop(st) && st.cells[d].subscribers == []
    ensures var r := Get(st, d).0;
      && |r.effects| == |st.effects| + 1 && r.effects[|st.effects|].body == Inner(d)
      && SubscribedTo(r, c, |st.effects|) && d in r.awaiting
  {
    var st1 := FirstReadIs(st, d);
    CreateInnerOverPlain(st1, d, c);
    var st2 := CreateInner(st1, d).0;
    var st3 := SetInnerCleanup(st2, d, |st.effects|);
    var st4 := AddRemover(st3, Remover(d, Top(st)));
    assert st4.effects[|st.effects|] == st2.effects[|st.effects|];
    assert st4.cells[c] == st2.cells[c];
  }

  /** The first read of a derived cell inside a user effect: subscribe the
      reader, create the inner effect, keep it as `cleanup`, record the
      remover. */
  lemma FirstReadIs<V>(st: State<V>, d: SigId) returns (st1: State<V>)
    requires Valid(st) && d < |st.cells| && st.cells[d].kind.Derived?
    requires st.stack != [] && UserOnTop(st) && st.cells[d].subscribers == []
    ensures Valid(st1) && st1 == AddSubscriber(st, d, Top(st)) && st1.cells[d].subscribers == [Top(st)]
    ensures var st2 := CreateInner(st1, d).0;
      && CreateInner(st1, d).1 == |st.effects| && Valid(st2)
      && var st3 := SetInnerCleanup(st2, d, |st.effects|);
      && Top(st) < |st3.effects| && st3.effects[Top(st)].body.User?
      && Get(st, d).0 == AddRemover(st3, Remover(d, Top(st)))
  {
    st1 := AddSubscriber(st, d, Top(st));
    assert st1.cells[d].subscribers == [Top(st)];
    var (st2, inner) := CreateInner(st1, d);
    var st3 := SetInnerCleanup(st2, d, inner);
    assert Activate(st1, d).0 == st3;
    assert SubscribedDerived(st1, d).0 == st3;
    assert Get(st, d).0 == TrackDerived(st, d).0;
  }

  /** A read, inside an effect that is not yet subscribed to it, of a
      derived cell that already has a subscriber and one plain dependency:
      the recompute branch, which creates no effect and subscribes the
      reader. */
  lemma TrackedReadOverPlain<V>(st: State<V>, d: SigId, c: SigId)
    requires Valid(st) && d < |st.cells| && st.cells[d].kind.Derived? && st.cells[d].kind.deps == [c]
    requires c < |st.cells| && st.cells[c].kind.Plain? && st.stack != [] && ReadableBelow(st, d + 1)
    requires st.cells[d].subscribers != [] && Top(st) !in st.cells[d].subscribers
    ensures |Get(st, d).0.effects| == |st.effects| && SubscribedTo(Get(st, d).0, d, Top(st))
    ensures Get(st, d).0.cells[d].cleanup == st.cells[d].cleanup
  {
    assert Get(st, d) == TrackDerived(st, d);
    var st3 := TrackedReadIs(st, d, c);
    var rs := Get(st, d).0.effects[Top(st)].removers;
    assert rs == st3.effects[Top(st)].removers + [Remover(d, Top(st))];
    assert rs[|rs| - 1] == Remover(d, Top(st));
  }

  /** The recompute branch of the derived getter, unfolded: the state `st3`
      before the remover is recorded. */
  lemma TrackedReadIs<V>(st: State<V>, d: SigId, c: SigId) returns (st3: State<V>)
    requires Valid(st) && d < |st.cells| && st.cells[d].kind.Derived? && st.cells[d].kind.deps == [c]
    requires c < |st.cells| && st.cells[c].kind.Plain? && st.stack != [] && ReadableBelow(st, d + 1)
    requires st.cells[d].subscribers != [] && Top(st) !in st.cells[d].subscribers
    ensures Valid(st3) && |st3.effects| == |st.effects| && Top(st) < |st3.effects| && d < |st3.cells|
    ensures Top(st) in st3.cells[d].subscribers
    ensures st3.effects[Top(st)].body.Inner? ==> d < st3.effects[Top(st)].body.owner
    ensures Get(st, d).0 == AddRemover(st3, Remover(d, Top(st)))
  {
    var st1 := AddSubscriber(st, d, Top(st));
    RecomputeSubscribed(st, d, c);
    st3 := TrackedRecompute(st1, d).0;
    assert Get(st, d).0 == TrackDerived(st, d).0;
  }

  /** The recompute branch, run after the reader joined `d`'s subscribers. */
  lemma RecomputeSubscribed<V>(st: State<V>, d: SigId, c: SigId)
    requires Valid(st) && d < |st.cells| && st.cells[d].kind.Derived? && st.cells[d].kind.deps == [c]
    requires c < |st.cells| && st.cells[c].kind.Plain? && st.stack != [] && ReadableBelow(st, d + 1)
    requires st.cells[d].subscribers != [] && Top(st) !in st.cells[d].subscribers
    ensures var st1 := AddSubscriber(st, d, Top(st));
      && ReadableBelow(st1, d + 1) && |st1.cells[d].subscribers| != 1
      && SubscribedDerived(st1, d) == TrackedRecompute(st1, d)
      && var st3 := TrackedRecompute(st1, d).0;
      && |st3.effects| == |st.effects| && Top(st) in st3.cells[d].subscribers
  {
    var st1 := AddSubscriber(st, d, Top(st));
    assert SubscribedDerived(st1, d) == TrackedRecompute(st1, d);
    RecomputeOverPlain(st1, d, c);
  }

  /** The recompute branch creates no effect when the one dependency is
      plain. */
  lemma RecomputeOverPlain<V>(st: State<V>, d: SigId, c: SigId)
    requires Valid(st) && d < |st.cells| && st.cells[d].kind.Derived? && st.cells[d].kind.deps == [c]
    requires c < |st.cells| && st.cells[c].kind.Plain? && st.stack != [] && ReadableBelow(st, d + 1)
    ensures |TrackedRecompute(st, d).0.effects| == |st.effects|
  {
    CalculateOverPlain(st, d, c);
  }

  /** `calculate()` of derived cell `q`, whose one dependency `d` is a
      derived cell over a plain cell `c` that already has a subscriber, made
      inside an effect not yet subscribed to `d`: it creates no effect and
      subscribes the reader to `d`. */
  lemma CalculateOverDerived<V>(st: State<V>, q: SigId, d: SigId, c: SigId)
    requires Valid(st) && q < |st.cells| && st.cells[q].kind.Derived? && st.cells[q].kind.deps == [d]
    requires d < |st.cells| && st.cells[d].kind.Derived? && st.cells[d].kind.deps == [c]
    requires c < |st.cells| && st.cells[c].kind.Plain? && st.stack != [] && ReadableBelow(st, q)
    requires st.cells[d].subscribers != [] && Top(st) !in st.cells[d].subscribers
    ensures var r := Calculate(st, q).0;
      && |r.effects| == |st.effects| && SubscribedTo(r, d, Top(st)) && r.cells[d].cleanup == st.cells[d].cleanup
  {
    var st0 := CountCalculate(st, q);
    NestedReadable(st, st0, q);
    assert Calculate(st, q).0 == ReadDeps(st0, q, 0).0;
    OneDepRead(st0, q, d);
    TrackedReadOverPlain(st0, d, c);
  }

  /** The callback of `q`'s inner effect, under the same conditions. */
  lemma InnerBodyOverDerived<V>(st: State<V>, q: SigId, d: SigId, c: SigId)
    requires Valid(st) && q < |st.cells| && st.cells[q].kind.Derived? && st.cells[q].kind.deps == [d]
    requires d < |st.cells| && st.cells[d].kind.Derived? && st.cells[d].kind.deps == [c]
    requires c < |st.cells| && st.cells[c].kind.Plain? && st.stack != [] && ReadableBelow(st, q)
    requires st.cells[d].subscribers != [] && Top(st) !in st.cells[d].subscribers
    ensures |InnerBody(st, q).effects| == |st.effects| && SubscribedTo(InnerBody(st, q), d, Top(st))
    ensures InnerBody(st, q).cells[d].cleanup == st.cells[d].cleanup
  {
    var (st1, v) := Calculate(st, q);
    CalculateOverDerived(st, q, d, c);
    OneDepRead(st, q, d);
    var st2 := CacheIfChanged(st1, q, v);
    assert st2.cells[d] == st1.cells[d];
  }

  /** The inner effect of `q`: exactly one effect is created, and it ends
      subscribed to `d`. */
  lemma CreateInnerOverDerived<V>(st: State<V>, q: SigId, d: SigId, c: SigId)
    requires Valid(st) && q < |st.cells| && st.cells[q].kind.Derived? && st.cells[q].kind.deps == [d]
    requires d < |st.cells| && st.cells[d].kind.Derived? && st.cells[d].kind.deps == [c]
    requires c < |st.cells| && st.cells[c].kind.Plain? && st.cells[d].subscribers != []
    ensures var r := CreateInner(st, q);
      && |r.0.effects| == |st.effects| + 1 && SubscribedTo(r.0, d, r.1)
      && r.0.cells[d].cleanup == st.cells[d].cleanup
  {
    assert CellOk(st, d);
    var st2 := CreateInnerIs(st, q);
    InnerBodyOverDerived(st2, q, d, c);
  }

  /** The first read, inside a user effect, of `q`: exactly one effect is
      created, the inner effect of `q`, which ends subscribed to `d`, and
      `q` is enqueued. */
  lemma FirstReadOverDerived<V>(st: State<V>, q: SigId, d: SigId, c: SigId)
    requires Valid(st) && q < |st.cells| && st.cells[q].kind.Derived? && st.cells[q].kind.deps == [d]
    requires d < |st.cells| && st.cells[d].kind.Derived? && st.cells[d].kind.deps == [c]
    requires c < |st.cells| && st.cells[c].kind.Plain? && st.cells[d].subscribers != []
    requires st.stack != [] && UserOnTop(st) && st.cells[q].subscribers == []
    ensures var r := Get(st, q).0;
      && |r.effects| == |st.effects| + 1 && r.effects[|st.effects|].body == Inner(q)
      && SubscribedTo(r, d, |st.effects|) && q in r.awaiting
      && r.cells[d].cleanup == st.cells[d].cleanup && r.cells[q].cleanup == InnerCleanup(|st.effects|)
  {
    var st1 := FirstReadIs(st, q);
    assert CellOk(st, q) && st.cells[q].kind.deps[0] == d;
    CreateInnerOverDerived(st1, q, d, c);
    var st2 := CreateInner(st1, q).0;
    var st3 := SetInnerCleanup(st2, q, |st.effects|);
    var st4 := AddRemover(st3, Remover(q, Top(st)));
    assert st4.effects[|st.effects|] == st2.effects[|st.effects|];
    assert st4.cells[d] == st2.cells[d];
  }

  // ---------------------------------------------------------------------------
  // An effect over a chain of derived cells

  /** `effect(callback)` is its callback run once in the state `st1` where
      the new effect is counted and on top of the stack, then the pop. */
  lemma CreateEffectIs<V>(st: State<V>, script: seq<Instr<V>>) returns (st1: State<V>)
    requires Valid(st) && ScriptOk(st, script)
    ensures Valid(st1) && st1.cells == st.cells && ScriptOk(st1, script) && UserOnTop(st1)
    ensures st1.stack == st.stack + [|st.effects|] && |st1.effects| == |st.effects| + 1
    ensures st1.effects[|st.effects|].body == User(script)
    ensures CreateEffect(st, script) == (WithStack(RunScript(st1, script, 0), st.stack), |st.effects|)
  {
    var n := |st.effects|;
    var st0 := Pushed(st, User(script));
    NewEffectValid(st, User(script));
    st1 := Counted(st0, n);
    InvokeSplit(st0, n, st1);
    CallbackUser(st1, n, script);
  }

  /** A callback that reads `a` then `b` is those two getter calls. */
  lemma TwoReadsIs<V>(st: State<V>, a: SigId, b: SigId)
    requires Valid(st) && a < |st.cells| && b < |st.cells| && UserOnTop(st)
    ensures ReadableBelow(st, a + 1) && UserOnTop(Get(st, a).0) && ReadableBelow(Get(st, a).0, b + 1)
    ensures RunScript(st, [Read(a), Read(b)], 0) == Get(Get(st, a).0, b).0
  {
    var script := [Read(a), Read(b)];
    var st1 := Step(st, Read(a));
    ExtendsKeepsScript(st, st1, script);
    var st2 := Step(st1, Read(b));
    ExtendsKeepsScript(st1, st2, script);
    assert RunScript(st2, script, 2) == st2;
    assert RunScript(st1, script, 1) == st2;
  }

  /** `effect(() => { d(); q(); })` over `c` plain, `d` derived from `c`
      and `q` derived from `d`, neither derived cell having a subscriber:
      exactly three effects are created, the user effect `e` and the inner
      effects of `d` and `q` in that order; `e` reads `d` and `q`, `d`'s
      inner effect reads `c`, `q`'s reads `d`; and `d` is enqueued. */
  lemma EffectOverChain<V>(st: State<V>, c: SigId, d: SigId, q: SigId)
    requires Valid(st) && c < |st.cells| && d < |st.cells| && q < |st.cells|
    requires st.cells[c].kind.Plain?
    requires st.cells[d].kind.Derived? && st.cells[d].kind.deps == [c] && st.cells[d].subscribers == []
    requires st.cells[q].kind.Derived? && st.cells[q].kind.deps == [d] && st.cells[q].subscribers == []
    ensures var r := CreateEffect(st, [Read(d), Read(q)]);
      && var e := r.1;
      && |r.0.effects| == e + 3
      && r.0.effects[e + 1].body == Inner(d) && r.0.effects[e + 2].body == Inner(q)
      && SubscribedTo(r.0, d, e) && SubscribedTo(r.0, q, e)
      && SubscribedTo(r.0, c, e + 1) && SubscribedTo(r.0, d, e + 2)
      && d in r.0.awaiting
      && r.0.cells[d].cleanup == InnerCleanup(e + 1) && r.0.cells[q].cleanup == InnerCleanup(e + 2)
  {
    var script := [Read(d), Read(q)];
    var st1 := CreateEffectIs(st, script);
    TwoReadsIs(st1, d, q);
    ChainReads(st1, c, d, q);
  }

  /** The two reads of that callback, made with the new user effect on top
      of the stack. */
  lemma ChainReads<V>(st: State<V>, c: SigId, d: SigId, q: SigId)
    requires Valid(st) && c < |st.cells| && d < |st.cells| && q < |st.cells|
    requires st.cells[c].kind.Plain?
    requires st.cells[d].kind.Derived? && st.cells[d].kind.deps == [c] && st.cells[d].subscribers == []
    requires st.cells[q].kind.Derived? && st.cells[q].kind.deps == [d] && st.cells[q].subscribers == []
    requires st.stack != [] && UserOnTop(st) && Top(st) == |st.effects| - 1
    ensures ReadableBelow(st, d + 1) && ReadableBelow(Get(st, d).0, q + 1)
    ensures var r := Get(Get(st, d).0, q).0;
      && var e := Top(st);
      && |r.effects| == e + 3
      && r.effects[e + 1].body == Inner(d) && r.effects[e + 2].body == Inner(q)
      && SubscribedTo(r, d, e) && SubscribedTo(r, q, e)
      && SubscribedTo(r, c, e + 1) && SubscribedTo(r, d, e + 2)
      && d in r.awaiting
      && r.cells[d].cleanup == InnerCleanup(e + 1) && r.cells[q].cleanup == InnerCleanup(e + 2)
  {
    ChainFirst(st, c, d, q);
    var r1 := Get(st, d).0;
    FirstReadOverDerived(r1, q, d, c);
    ChainSecond(st, r1, c, d, q);
  }

  /** The second of those reads keeps what the first established. */
  lemma ChainSecond<V>(st: State<V>, r1: State<V>, c: SigId, d: SigId, q: SigId)
    requires Valid(r1) && c < |r1.cells| && d < |r1.cells| && q < |r1.cells| && ReadableBelow(r1, q + 1)
    requires r1.stack != [] && r1.stack == st.stack && Top(st) + 2 == |r1.effects|
    requires r1.effects[Top(st) + 1].body == Inner(d)
    requires SubscribedTo(r1, d, Top(st)) && SubscribedTo(r1, c, Top(st) + 1) && d in r1.awaiting
    ensures var r := Get(r1, q).0;
      && |r1.effects| <= |r.effects| && r.effects[Top(st) + 1].body == Inner(d)
      && SubscribedTo(r, d, Top(st)) && SubscribedTo(r, q, Top(st)) && SubscribedTo(r, c, Top(st) + 1)
      && d in r.awaiting
  {
    var r2 := Get(r1, q).0;
    GetOk(r1, q);
    assert r1.awaiting <= r2.awaiting;
    GrowsKeepsSubscribed(r1, r2, c, Top(st) + 1);
    GrowsKeepsSubscribed(r1, r2, d, Top(st));
  }

  /** The first of those reads. */
  lemma ChainFirst<V>(st: State<V>, c: SigId, d: SigId, q: SigId)
    requires Valid(st) && c < |st.cells| && d < |st.cells| && q < |st.cells|
    requires st.cells[c].kind.Plain?
    requires st.cells[d].kind.Derived? && st.cells[d].kind.deps == [c] && st.cells[d].subscribers == []
    requires st.cells[q].kind.Derived? && st.cells[q].kind.deps == [d] && st.cells[q].subscribers == []
    requires st.stack != [] && UserOnTop(st) && Top(st) == |st.effects| - 1
    ensures ReadableBelow(st, d + 1)
    ensures var r := Get(st, d).0;
      && var e := Top(st);
      && Valid(r) && r.stack == st.stack && UserOnTop(r) && ReadableBelow(r, q + 1)
      && |r.effects| == e + 2 && r.effects[e + 1].body == Inner(d)
      && SubscribedTo(r, d, e) && SubscribedTo(r, c, e + 1) && d in r.awaiting
      && r.cells[c].kind == st.cells[c].kind && r.cells[d].kind == st.cells[d].kind
      && r.cells[q] == st.cells[q] && r.cells[d].subscribers != []
      && r.cells[d].cleanup == InnerCleanup(e + 1)
  {
    var r1 := Get(st, d).0;
    FirstReadOverPlain(st, d, c);
    GetOk(st, d);
    assert CellOk(st, q) && st.cells[q].kind.deps[0] == d;
    assert r1.cells[q] == st.cells[q];
    assert r1.stack == st.stack && r1.effects[Top(st)].body == st.effects[Top(st)].body;
  }

  // ---------------------------------------------------------------------------
  // Counting `calculate` calls along the chain

  /** One read of `d` calculates `d` once; one read of `q` calculates `q`
      once and `d` once. */
  lemma ChainPaths<V>(st: State<V>, c: SigId, d: SigId, q: SigId)
    requires Valid(st) && c < |st.cells| && d < |st.cells| && q < |st.cells|
    requires st.cells[c].kind.Plain?
    requires st.cells[d].kind.Derived? && st.cells[d].kind.deps == [c]
    requires st.cells[q].kind.Derived? && st.cells[q].kind.deps == [d]
    ensures Paths(st, d, d) == 1 && Paths(st, d, q) == 0
    ensures Paths(st, q, d) == 1 && Paths(st, q, q) == 1
  {
    assert CellOk(st, d) && st.cells[d].kind.deps[0] == c;
    assert CellOk(st, q) && st.cells[q].kind.deps[0] == d;
    assert PathsDeps(st, d, 0, d) == Paths(st, c, d) + PathsDeps(st, d, 1, d);
    assert PathsDeps(st, d, 0, q) == Paths(st, c, q) + PathsDeps(st, d, 1, q);
    assert PathsDeps(st, q, 0, d) == Paths(st, d, d) + PathsDeps(st, q, 1, d);
    assert PathsDeps(st, q, 0, q) == Paths(st, d, q) + PathsDeps(st, q, 1, q);
  }

  /** A callback that reads `a` then `b` costs one read of each. */
  lemma TwoReadsPaths<V>(st: State<V>, a: SigId, b: SigId, x: SigId)
    requires Valid(st) && a < |st.cells| && b < |st.cells|
    ensures ScriptOk(st, [Read(a), Read(b)])
    ensures ScriptPaths(st, [Read(a), Read(b)], 0, x) == Paths(st, a, x) + Paths(st, b, x)
  {
    var script := [Read(a), Read(b)];
    assert ScriptPaths(st, script, 2, x) == 0;
    assert ScriptPaths(st, script, 1, x) == Paths(st, b, x);
  }

  /** A flush in which each of three effects ran costs one run of each. */
  lemma RanThree<V>(st: State<V>, effs: seq<Effect<V>>, x: SigId)
    requires Valid(st) && |st.effects| == 3 && 3 <= |effs|
    requires forall k :: 0 <= k < 3 ==> effs[k].calls != st.effects[k].calls
    ensures RanPaths(st, effs, x, 3) == BodyPaths(st, 0, x) + BodyPaths(st, 1, x) + BodyPaths(st, 2, x)
  {
    assert RanPaths(st, effs, x, 0) == 0;
    assert RanPaths(st, effs, x, 1) == BodyPaths(st, 0, x);
    assert RanPaths(st, effs, x, 2) == BodyPaths(st, 0, x) + BodyPaths(st, 1, x);
  }

  /** A flush runs every subscriber of every cell that was awaiting. */
  lemma FlushRunsAwaiting<V>(st: State<V>, r: State<V>, c: SigId, x: EffId)
    requires Flushed(st, r) && c in st.awaiting && c < |st.cells| && x in st.cells[c].subscribers
    ensures x < |st.effects| && r.effects[x].calls == st.effects[x].calls + 1
  {
    var k :| 0 <= k < |st.awaiting| && st.awaiting[k] == c;
    var m :| 0 <= m < |st.cells[c].subscribers| && st.cells[c].subscribers[m] == x;
  }

  /** An effect that read plain cell `c` when it was created runs once more,
      and exactly once, in the flush after a write to `c`, whatever else its
      callback does (src/signal/signals.ts:67-74 with 9-22 and 98-104). */
  lemma WriteRerunsReader<V>(st: State<V>, script: seq<Instr<V>>, c: SigId, v: V)
    requires Valid(st) && st.stack == [] && st.processed == {} && ScriptOk(st, script)
    requires c in ReadCells(script) && c < |st.cells| && st.cells[c].kind.Plain?
    ensures var r := CreateEffect(st, script);
      && r.0.effects[r.1].calls == 1
      && Notify(SetSignal(r.0, c, v)).effects[r.1].calls == 2
  {
    CreateEffectOk(st, script);
    var r := CreateEffect(st, script);
    var s1 := SetSignal(r.0, c, v);
    FlushRunsAwaiting(s1, Notify(s1), c, r.1);
  }

  /** The `calculate` calls of `effect(() => { d(); q(); })`: two of `d`
      (the inner effect of `d`, then `q`'s inner effect reading `d`) and one
      of `q`. */
  lemma ChainEffectCounts<V>(st: State<V>, c: SigId, d: SigId, q: SigId)
    requires Valid(st) && c < |st.cells| && d < |st.cells| && q < |st.cells|
    requires st.cells[c].kind.Plain?
    requires st.cells[d].kind.Derived? && st.cells[d].kind.deps == [c]
    requires st.cells[q].kind.Derived? && st.cells[q].kind.deps == [d]
    ensures var r := CreateEffect(st, [Read(d), Read(q)]).0;
      && r.cells[d].calculateCalls == st.cells[d].calculateCalls + 2
      && r.cells[q].calculateCalls == st.cells[q].calculateCalls + 1
  {
    CreateEffectOk(st, [Read(d), Read(q)]);
    ChainPaths(st, c, d, q);
    TwoReadsPaths(st, d, q, d);
    TwoReadsPaths(st, d, q, q);
  }

  /** A write to `c` and the flush that follows, once the effect and the
      two inner effects exist: all three run once, the user effect
      recomputing `d` twice and `q` once, `d`'s inner effect recomputing `d`,
      and `q`'s recomputing `q` and `d`. */
  lemma ChainFlushCounts<V>(st: State<V>, c: SigId, d: SigId, q: SigId, v: V)
    requires Valid(st) && st.stack == [] && st.processed == {}
    requires c < |st.cells| && d < |st.cells| && q < |st.cells|
    requires st.cells[c].kind.Plain?
    requires st.cells[d].kind.Derived? && st.cells[d].kind.deps == [c]
    requires st.cells[q].kind.Derived? && st.cells[q].kind.deps == [d]
    requires |st.effects| == 3 && st.effects[0].body == User([Read(d), Read(q)])
    requires st.effects[1].body == Inner(d) && st.effects[2].body == Inner(q)
    requires 1 in st.cells[c].subscribers && 0 in st.cells[d].subscribers && 2 in st.cells[d].subscribers
    requires d in st.awaiting
    ensures var r := Notify(SetSignal(st, c, v));
      && r.cells[d].calculateCalls == st.cells[d].calculateCalls + 4
      && r.cells[q].calculateCalls == st.cells[q].calculateCalls + 2
      && forall k :: 0 <= k < 3 ==> r.effects[k].calls == st.effects[k].calls + 1
  {
    var s1 := SetSignal(st, c, v);
    var r := Notify(s1);
    ChainFlushRuns(st, c, d, q, v);
    NotifyCost(s1);
    ChainBodies(s1, c, d, q);
    ChainFlushSum(s1, r, d, q);
  }

  /** All three effects run in that flush: `d`'s inner effect because it
      subscribes to `c`, the other two because they subscribe to `d`, which
      its inner effect enqueued when it was created. */
  lemma ChainFlushRuns<V>(st: State<V>, c: SigId, d: SigId, q: SigId, v: V)
    requires Valid(st) && st.stack == [] && st.processed == {}
    requires c < |st.cells| && d < |st.cells| && st.cells[c].kind.Plain? && |st.effects| == 3
    requires 1 in st.cells[c].subscribers && 0 in st.cells[d].subscribers && 2 in st.cells[d].subscribers
    requires d in st.awaiting
    ensures var r := Notify(SetSignal(st, c, v));
      forall k :: 0 <= k < 3 ==> r.effects[k].calls == st.effects[k].calls + 1
  {
    var s1 := SetSignal(st, c, v);
    var r := Notify(s1);
    FlushRunsAwaiting(s1, r, c, 1);
    FlushRunsAwaiting(s1, r, d, 0);
    FlushRunsAwaiting(s1, r, d, 2);
    forall k | 0 <= k < 3 ensures r.effects[k].calls == st.effects[k].calls + 1 {
      assert k == 0 || k == 1 || k == 2;
    }
  }

  /** The counters after a flush that ran all three effects once. */
  lemma ChainFlushSum<V>(st: State<V>, r: State<V>, d: SigId, q: SigId)
    requires Valid(st) && |st.effects| == 3 && |r.effects| == 3 && d < |st.cells| && q < |st.cells|
    requires forall k :: 0 <= k < 3 ==> r.effects[k].calls == st.effects[k].calls + 1
    requires CostRan(st, r)
    requires BodyPaths(st, 0, d) == 2 && BodyPaths(st, 1, d) == 1 && BodyPaths(st, 2, d) == 1
    requires BodyPaths(st, 0, q) == 1 && BodyPaths(st, 1, q) == 0 && BodyPaths(st, 2, q) == 1
    ensures r.cells[d].calculateCalls == st.cells[d].calculateCalls + 4
    ensures r.cells[q].calculateCalls == st.cells[q].calculateCalls + 2
  {
    RanThree(st, r.effects, d);
    RanThree(st, r.effects, q);
  }

  /** What one run of each of the three effects costs. */
  lemma ChainBodies<V>(st: State<V>, c: SigId, d: SigId, q: SigId)
    requires Valid(st) && c < |st.cells| && d < |st.cells| && q < |st.cells|
    requires st.cells[c].kind.Plain?
    requires st.cells[d].kind.Derived? && st.cells[d].kind.deps == [c]
    requires st.cells[q].kind.Derived? && st.cells[q].kind.deps == [d]
    requires |st.effects| == 3 && st.effects[0].body == User([Read(d), Read(q)])
    requires st.effects[1].body == Inner(d) && st.effects[2].body == Inner(q)
    ensures BodyPaths(st, 0, d) == 2 && BodyPaths(st, 1, d) == 1 && BodyPaths(st, 2, d) == 1
    ensures BodyPaths(st, 0, q) == 1 && BodyPaths(st, 1, q) == 0 && BodyPaths(st, 2, q) == 1
  {
    ChainPaths(st, c, d, q);
    TwoReadsPaths(st, d, q, d);
    TwoReadsPaths(st, d, q, q);
  }

  /** The three cells of the derived test, created from the empty state:
      `count` (id 0), `doubled` over it (id 1) and `quadrupled` over
      `doubled` (id 2), none computed yet and no effect. */
  ghost function ChainCells<V>(v0: V, f: seq<V> -> V, g: seq<V> -> V): (r: State<V>)
    ensures Valid(r) && |r.cells| == 3 && r.stack == [] && r.processed == {} && r.effects == []
    ensures r.cells[0].kind.Plain? && r.cells[0].value == Some(v0)
    ensures r.cells[1].kind == Derived([0], f) && r.cells[2].kind == Derived([1], g)
    ensures r.cells[1].calculateCalls == 0 && r.cells[2].calculateCalls == 0
    ensures r.cells[1].subscribers == [] && r.cells[2].subscribers == []
  {
    var (s1, c) := NewSignal(Init<V>(), v0, NoHook);
    var (s2, d) := NewDerived(s1, [c], f);
    var (s3, q) := NewDerived(s2, [d], g);
    assert s3.cells[0] == s2.cells[..2][0] == s1.cells[0];
    assert s3.cells[1] == s2.cells[1];
    s3
  }

  /** The state `effect(() => { d(); q(); })` leaves over such a chain:
      the shape a later write and flush work on. */
  lemma ChainAfterEffect<V>(st: State<V>, c: SigId, d: SigId, q: SigId)
    requires Valid(st) && st.stack == [] && st.processed == {} && st.effects == []
    requires c < |st.cells| && d < |st.cells| && q < |st.cells|
    requires st.cells[c].kind.Plain?
    requires st.cells[d].kind.Derived? && st.cells[d].kind.deps == [c] && st.cells[d].subscribers == []
    requires st.cells[q].kind.Derived? && st.cells[q].kind.deps == [d] && st.cells[q].subscribers == []
    ensures CreateEffect(st, [Read(d), Read(q)]).1 == 0
    ensures var s4 := CreateEffect(st, [Read(d), Read(q)]).0;
      && Valid(s4) && s4.stack == [] && s4.processed == {} && |s4.cells| == |st.cells|
      && s4.cells[c].kind.Plain? && s4.cells[d].kind == st.cells[d].kind && s4.cells[q].kind == st.cells[q].kind
      && |s4.effects| == 3 && s4.effects[0].body == User([Read(d), Read(q)])
      && s4.effects[1].body == Inner(d) && s4.effects[2].body == Inner(q)
      && 1 in s4.cells[c].subscribers && 0 in s4.cells[d].subscribers && 2 in s4.cells[d].subscribers
      && 0 in s4.cells[q].subscribers && Linked(s4)
      && s4.cells[d].cleanup == InnerCleanup(1) && s4.cells[q].cleanup == InnerCleanup(2)
      && d in s4.awaiting
      && s4.cells[d].calculateCalls == st.cells[d].calculateCalls + 2
      && s4.cells[q].calculateCalls == st.cells[q].calculateCalls + 1
      && s4.effects[0].calls == 1
  {
    EffectOverChain(st, c, d, q);
    ChainEffectCounts(st, c, d, q);
    NoEffectsLinked(st);
    GrowsKeepsLinked(st, CreateEffect(st, [Read(d), Read(q)]).0);
  }

  /** From a chain with no effect yet: the effect reading `d` then `q`,
      a write to `c`, and the flush, with the counts each step adds. */
  lemma ChainScenario<V>(st: State<V>, c: SigId, d: SigId, q: SigId, v: V)
    requires Valid(st) && st.stack == [] && st.processed == {} && st.effects == []
    requires c < |st.cells| && d < |st.cells| && q < |st.cells|
    requires st.cells[c].kind.Plain?
    requires st.cells[d].kind.Derived? && st.cells[d].kind.deps == [c] && st.cells[d].subscribers == []
    requires st.cells[q].kind.Derived? && st.cells[q].kind.deps == [d] && st.cells[q].subscribers == []
    ensures CreateEffect(st, [Read(d), Read(q)]).1 == 0
    ensures var s4 := CreateEffect(st, [Read(d), Read(q)]).0;
      && s4.cells[d].calculateCalls == st.cells[d].calculateCalls + 2
      && s4.cells[q].calculateCalls == st.cells[q].calculateCalls + 1
      && s4.effects[0].calls == 1
    ensures var s5 := SetSignal(CreateEffect(st, [Read(d), Read(q)]).0, c, v);
      && s5.cells[d].calculateCalls == st.cells[d].calculateCalls + 2
      && s5.cells[q].calculateCalls == st.cells[q].calculateCalls + 1
      && s5.effects[0].calls == 1
    ensures var s6 := Notify(SetSignal(CreateEffect(st, [Read(d), Read(q)]).0, c, v));
      && s6.cells[d].calculateCalls == st.cells[d].calculateCalls + 6
      && s6.cells[q].calculateCalls == st.cells[q].calculateCalls + 3
      && s6.effects[0].calls == 2
  {
    ChainAfterEffect(st, c, d, q);
    var s4 := CreateEffect(st, [Read(d), Read(q)]).0;
    ChainFlushCounts(s4, c, d, q, v);
    var s5 := SetSignal(s4, c, v);
    assert c != d && c != q;
    assert s5.cells[d] == s4.cells[d] && s5.cells[q] == s4.cells[q] && s5.effects == s4.effects;
  }

  /** Before any effect exists no cell has a subscriber. */
  lemma NoEffectsLinked<V>(st: State<V>)
    requires Valid(st) && st.effects == []
    ensures Linked(st)
  {
    forall c | 0 <= c < |st.cells| ensures st.cells[c].subscribers == [] {
      assert CellOk(st, c);
      BoundedLength(st.cells[c].subscribers, 0);
    }
  }

  /** Unsubscribing the user effect (effect 0) from the state the flush left:
      `q` loses its only subscriber, so its inner effect (effect 2) is
      unsubscribed, which takes `d`'s last subscriber away, so `d`'s inner
      effect (effect 1) is unsubscribed too; no subscriber is left anywhere. */
  lemma ChainTorn<V>(st: State<V>, c: SigId, d: SigId, q: SigId)
    requires Valid(st) && Linked(st) && |st.effects| == 3
    requires d < |st.cells| && q < |st.cells|
    requires st.cells[q].kind.Derived? && st.cells[q].kind.deps == [d]
    requires st.effects[1].body == Inner(d) && st.effects[2].body == Inner(q)
    requires 0 in st.cells[d].subscribers && 0 in st.cells[q].subscribers
    requires st.cells[d].cleanup == InnerCleanup(1) && st.cells[q].cleanup == InnerCleanup(2)
    ensures NoSubscribers(Unsubscribe(st, 0))
  {
    var r := Unsubscribe(st, 0);
    UnsubscribeDetaches(st, 0);
    assert CellOk(st, q) && st.cells[q].kind.deps[0] == d;
    assert EffectOk(st, 1) && EffectOk(st, 2);
    // Neither inner effect can read `q`, and `d`'s cannot read `d`.
    assert r.cells[q].subscribers == [] by {
      if r.cells[q].subscribers != [] {
        var k := r.cells[q].subscribers[0];
        HeldRemover(st, r, q, k);
      }
    }
    assert Detached(st, r, 2);
    assert r.cells[d].subscribers == [] by {
      if r.cells[d].subscribers != [] {
        var k := r.cells[d].subscribers[0];
        HeldRemover(st, r, d, k);
      }
    }
    assert Detached(st, r, 1);
    forall x | 0 <= x < |st.cells| ensures r.cells[x].subscribers == [] {
      if r.cells[x].subscribers != [] {
        var k := r.cells[x].subscribers[0];
        HeldRemover(st, r, x, k);
      }
    }
  }

  /** An effect still subscribed after an unsubscribe was subscribed before,
      so it holds the remover. */
  lemma HeldRemover<V>(st: State<V>, r: State<V>, x: SigId, k: EffId)
    requires Linked(st) && UnsubFrame(st, r) && x < |st.cells| && k in r.cells[x].subscribers
    ensures HasRemover(st, x, k)
  {
    ShrinkAt(st, r, x, k);
    var i :| 0 <= i < |st.cells[x].subscribers| && st.cells[x].subscribers[i] == k;
  }

  /** No cell has a subscriber. */
  ghost predicate NoSubscribers<V>(st: State<V>)
  {
    forall x :: 0 <= x < |st.cells| ==> st.cells[x].subscribers == []
  }

  /** No effect ran and no `calculate` was called between `st` and `r`. */
  ghost predicate NothingRan<V>(st: State<V>, r: State<V>)
  {
    && |r.cells| == |st.cells| && |r.effects| == |st.effects|
    && (forall x :: 0 <= x < |st.cells| ==> r.cells[x].calculateCalls == st.cells[x].calculateCalls)
    && (forall e :: 0 <= e < |st.effects| ==> r.effects[e].calls == st.effects[e].calls)
  }

  /** With no subscriber anywhere, a write and the flush after it run no
      effect and call no `calculate`. */
  lemma QuietWrite<V>(st: State<V>, c: SigId, v: V)
    requires Valid(st) && st.stack == [] && st.processed == {} && c < |st.cells| && st.cells[c].kind.Plain?
    requires NoSubscribers(st)
    ensures NothingRan(st, Notify(SetSignal(st, c, v)))
  {
    var s1 := SetSignal(st, c, v);
    QuietSet(st, c, v);
    QuietFlush(s1);
  }

  /** A write subscribes nobody, runs nothing and calls no `calculate`. */
  lemma QuietSet<V>(st: State<V>, c: SigId, v: V)
    requires Valid(st) && c < |st.cells| && st.cells[c].kind.Plain? && NoSubscribers(st)
    ensures NoSubscribers(SetSignal(st, c, v)) && NothingRan(st, SetSignal(st, c, v))
  {
    var s1 := SetSignal(st, c, v);
    forall x | 0 <= x < |s1.cells| ensures s1.cells[x].subscribers == [] {
      assert s1.cells[x].subscribers == st.cells[x].subscribers;
    }
  }

  /** A flush with no subscriber anywhere runs no effect and calls no
      `calculate`. */
  lemma QuietFlush<V>(st: State<V>)
    requires Valid(st) && st.stack == [] && st.queued && st.processed == {} && NoSubscribers(st)
    ensures NothingRan(st, Notify(st))
  {
    var r := Notify(st);
    forall e | 0 <= e < |st.effects| ensures r.effects[e].calls == st.effects[e].calls {
      assert !Subscribed(st, e);
    }
    NotifyCost(st);
    forall x | 0 <= x < |st.cells| ensures r.cells[x].calculateCalls == st.cells[x].calculateCalls {
      RanPathsNone(st, r.effects, x, |st.effects|);
    }
  }

  /** The state the first part of the chain test leaves: the effect reading
      `d` then `q` created, `c` written, and the flush run. */
  ghost function ChainFlushed<V>(st: State<V>, c: SigId, d: SigId, q: SigId, v: V): (s6: State<V>)
    requires Valid(st) && st.stack == [] && st.processed == {} && st.effects == []
    requires c < |st.cells| && d < |st.cells| && q < |st.cells|
    requires st.cells[c].kind.Plain?
    requires st.cells[d].kind.Derived? && st.cells[d].kind.deps == [c] && st.cells[d].subscribers == []
    requires st.cells[q].kind.Derived? && st.cells[q].kind.deps == [d] && st.cells[q].subscribers == []
    ensures Valid(s6) && Linked(s6) && s6.stack == [] && s6.processed == {}
    ensures |s6.cells| == |st.cells| && |s6.effects| == 3
    ensures s6.cells[c].kind.Plain? && s6.cells[q].kind == st.cells[q].kind
    ensures s6.effects[1].body == Inner(d) && s6.effects[2].body == Inner(q)
    ensures 0 in s6.cells[d].subscribers && 0 in s6.cells[q].subscribers
    ensures s6.cells[d].cleanup == InnerCleanup(1) && s6.cells[q].cleanup == InnerCleanup(2)
  {
    ChainAfterEffect(st, c, d, q);
    var s4 := CreateEffect(st, [Read(d), Read(q)]).0;
    var s5 := SetSignal(s4, c, v);
    GrowsKeepsLinked(s4, s5);
    var s6 := Notify(s5);
    GrowsKeepsLinked(s5, s6);
    s6
  }

  /** The state the rest of the chain test leaves: from `ChainFlushed`, the
      user effect (effect 0) unsubscribed, `c` written again, and the flush
      run; nothing ran on the way. */
  ghost function ChainRewritten<V>(st: State<V>, c: SigId, d: SigId, q: SigId, v: V, w: V): (s8: State<V>)
    requires Valid(st) && st.stack == [] && st.processed == {} && st.effects == []
    requires c < |st.cells| && d < |st.cells| && q < |st.cells|
    requires st.cells[c].kind.Plain?
    requires st.cells[d].kind.Derived? && st.cells[d].kind.deps == [c] && st.cells[d].subscribers == []
    requires st.cells[q].kind.Derived? && st.cells[q].kind.deps == [d] && st.cells[q].subscribers == []
    ensures NothingRan(ChainFlushed(st, c, d, q, v), s8)
  {
    ChainTeardown(st, c, d, q, v, w);
    Notify(SetSignal(Unsubscribe(ChainFlushed(st, c, d, q, v), 0), c, w))
  }

  /** The end of the derived test (src/signal/signals.test.js:172-180): once
      the user effect of the chain is unsubscribed, no cell has a
      subscriber left, so neither the unsubscribe nor a further write and
      its flush run an effect or call a `calculate`; the counts stay at
      what the first flush left. */
  lemma ChainTeardown<V>(st: State<V>, c: SigId, d: SigId, q: SigId, v: V, w: V)
    requires Valid(st) && st.stack == [] && st.processed == {} && st.effects == []
    requires c < |st.cells| && d < |st.cells| && q < |st.cells|
    requires st.cells[c].kind.Plain?
    requires st.cells[d].kind.Derived? && st.cells[d].kind.deps == [c] && st.cells[d].subscribers == []
    requires st.cells[q].kind.Derived? && st.cells[q].kind.deps == [d] && st.cells[q].subscribers == []
    ensures var s6 := ChainFlushed(st, c, d, q, v);
      && var s7 := Unsubscribe(s6, 0);
      && NoSubscribers(s7) && NothingRan(s6, s7)
      && NothingRan(s6, Notify(SetSignal(s7, c, w)))
  {
    var s6 := ChainFlushed(st, c, d, q, v);
    var s7 := Unsubscribe(s6, 0);
    ChainTorn(s6, c, d, q);
    QuietWrite(s7, c, w);
  }

  /** The derived test with an effect (src/signal/signals.test.js:125-168): over
      `count`, `doubled` derived from it and `quadrupled` derived from
      `doubled`, an effect reading `doubled` then `quadrupled` leaves the
      `calculate` counts at 2 and 1 and the effect count at 1; a write to
      `count` changes none of them before the flush; after the flush they
      are 6, 3 and 2. */
  lemma DerivedWithEffect<V>(v0: V, v1: V, f: seq<V> -> V, g: seq<V> -> V)
    ensures
      var s3 := ChainCells(v0, f, g);
      var e := CreateEffect(s3, [Read(1), Read(2)]).1;
      var s4 := CreateEffect(s3, [Read(1), Read(2)]).0;
      var s5 := SetSignal(s4, 0, v1);
      var s6 := Notify(s5);
      && s4.cells[1].calculateCalls == 2 && s4.cells[2].calculateCalls == 1 && s4.effects[e].calls == 1
      && s5.cells[1].calculateCalls == 2 && s5.cells[2].calculateCalls == 1 && s5.effects[e].calls == 1
      && s6.cells[1].calculateCalls == 6 && s6.cells[2].calculateCalls == 3 && s6.effects[e].calls == 2
  {
    ChainScenario(ChainCells(v0, f, g), 0, 1, 2, v1);
  }

  /** The rest of that test (src/signal/signals.test.js:170-180): from the
      state the flush left, with its counts 6, 3 and 2, `unsubscribe()` (the
      user effect is effect 0), a second write and its flush leave them at
      6, 3 and 2. */
  lemma DerivedUnsubscribed<V>(v0: V, v1: V, v2: V, f: seq<V> -> V, g: seq<V> -> V)
    ensures CreateEffect(ChainCells(v0, f, g), [Read(1), Read(2)]).1 == 0
    ensures var s6 := ChainFlushed(ChainCells(v0, f, g), 0, 1, 2, v1);
      s6.cells[1].calculateCalls == 6 && s6.cells[2].calculateCalls == 3 && s6.effects[0].calls == 2
    ensures var s8 := ChainRewritten(ChainCells(v0, f, g), 0, 1, 2, v1, v2);
      s8.cells[1].calculateCalls == 6 && s8.cells[2].calculateCalls == 3 && s8.effects[0].calls == 2
  {
    var s3 := ChainCells(v0, f, g);
    ChainScenario(s3, 0, 1, 2, v1);
  }

  // ---------------------------------------------------------------------------
  // The onSubscribe hook seen through a derived cell

  /** What the first tracked read of a plain cell `c` with a cleanup-returning
      hook and no subscriber does, made by effect `top`: `top` becomes the
      only subscriber, the hook fires once and its cleanup is held, and `top`
      gains the remover; no other effect changes. */
  ghost predicate HookRead<V>(st: State<V>, r: State<V>, c: SigId, top: EffId)
  {
    && c < |st.cells| && |r.cells| == |st.cells| && top < |st.effects| && |r.effects| == |st.effects|
    && r.cells[c].subscribers == [top] && r.cells[c].subscribeCalls == st.cells[c].subscribeCalls + 1
    && r.cells[c].cleanup == HookCleanup && r.cells[c].cleanupCalls == st.cells[c].cleanupCalls
    && r.effects[top].removers == st.effects[top].removers + [Remover(c, top)]
    && r.effects[top].body == st.effects[top].body && r.effects[top].calls == st.effects[top].calls
    && forall e :: 0 <= e < |st.effects| && e != top ==> r.effects[e] == st.effects[e]
  }

  /** `calculate()` of derived cell `d` over such a cell `c`. */
  lemma HookCalculate<V>(st: State<V>, d: SigId, c: SigId)
    requires Valid(st) && d < |st.cells| && st.cells[d].kind.Derived? && st.cells[d].kind.deps == [c]
    requires c < |st.cells| && st.cells[c].kind == Plain(HookWithCleanup) && st.cells[c].subscribers == []
    requires st.stack != [] && ReadableBelow(st, d)
    ensures HookRead(st, Calculate(st, d).0, c, Top(st))
  {
    var st0 := CountCalculate(st, d);
    NestedReadable(st, st0, d);
    OneDepRead(st0, d, c);
    assert Calculate(st, d).0 == TrackPlain(st0, c).0 by {
      assert Calculate(st, d).0 == ReadDeps(st0, d, 0).0;
      assert Get(st0, c) == TrackPlain(st0, c);
    }
    assert st0.cells[c] == st.cells[c] && st0.effects == st.effects && st0.stack == st.stack;
    HookTrack(st0, c);
  }

  /** The tracked read itself. */
  lemma HookTrack<V>(st: State<V>, c: SigId)
    requires Valid(st) && c < |st.cells| && st.cells[c].kind == Plain(HookWithCleanup) && st.cells[c].subscribers == []
    requires st.stack != [] && ReadableBelow(st, c + 1)
    ensures HookRead(st, TrackPlain(st, c).0, c, Top(st))
  {
  }

  /** The callback of `d`'s inner effect, likewise. */
  lemma HookInnerBody<V>(st: State<V>, d: SigId, c: SigId)
    requires Valid(st) && d < |st.cells| && st.cells[d].kind.Derived? && st.cells[d].kind.deps == [c]
    requires c < |st.cells| && st.cells[c].kind == Plain(HookWithCleanup) && st.cells[c].subscribers == []
    requires st.stack != [] && ReadableBelow(st, d)
    ensures HookRead(st, InnerBody(st, d), c, Top(st))
  {
    var r1 := Calculate(st, d);
    HookCalculate(st, d, c);
    OneDepRead(st, d, c);
    var st2 := CacheIfChanged(r1.0, d, r1.1);
    assert st2.cells[c] == r1.0.cells[c];
  }

  /** The inner effect of `d` over such a cell `c`: one new effect, which
      holds the one remover for `c`; `c` now has it as only subscriber and
      holds the hook's cleanup; `d`'s own subscribers and cleanup are as
      before. */
  lemma HookCreateInner<V>(st: State<V>, d: SigId, c: SigId)
    requires Valid(st) && d < |st.cells| && st.cells[d].kind.Derived? && st.cells[d].kind.deps == [c]
    requires c < |st.cells| && st.cells[c].kind == Plain(HookWithCleanup) && st.cells[c].subscribers == []
    ensures HookInner(st, CreateInner(st, d).0, d, c)
  {
    var n := |st.effects|;
    var st2 := CreateInnerIs(st, d);
    assert Top(st2) == n;
    HookInnerBody(st2, d, c);
    HookInnerShape(st, st2, InnerBody(st2, d), d, c);
  }

  /** What creating `d`'s inner effect over such a cell `c` leaves. */
  ghost predicate HookInner<V>(st: State<V>, r: State<V>, d: SigId, c: SigId)
  {
    var n := |st.effects|;
    && c < |st.cells| && d < |st.cells|
    && |r.cells| == |st.cells| && |r.effects| == n + 1 && r.effects[..n] == st.effects
    && r.effects[n] == Effect(Inner(d), [Remover(c, n)], 1)
    && r.cells[c].subscribers == [n] && r.cells[c].subscribeCalls == st.cells[c].subscribeCalls + 1
    && r.cells[c].cleanup == HookCleanup && r.cells[c].cleanupCalls == st.cells[c].cleanupCalls
    && r.cells[d].subscribers == st.cells[d].subscribers && r.cells[d].cleanup == st.cells[d].cleanup
  }

  lemma HookInnerShape<V>(st: State<V>, st2: State<V>, r: State<V>, d: SigId, c: SigId)
    requires c < |st.cells| && d < |st.cells| && st2.cells == st.cells
    requires |st2.effects| == |st.effects| + 1 && st2.effects[..|st.effects|] == st.effects
    requires st2.effects[|st.effects|] == Effect(Inner(d), [], 1)
    requires HookRead(st2, r, c, |st.effects|) && InnerRan(st2, r, d)
    ensures HookInner(st, r, d, c)
  {
    var n := |st.effects|;
    assert r.effects[..n] == st2.effects[..n] by {
      assert forall i :: 0 <= i < n ==> r.effects[i] == st2.effects[i];
    }
  }

  /** The first read of `d` inside user effect `top`: `d` gets `top` as
      only subscriber and the new inner effect as cleanup, `top` gains the
      remover for `d`, and the inner effect is the one subscriber of `c`. */
  lemma HookFirstRead<V>(st: State<V>, d: SigId, c: SigId)
    requires Valid(st) && d < |st.cells| && st.cells[d].kind.Derived? && st.cells[d].kind.deps == [c]
    requires c < |st.cells| && st.cells[c].kind == Plain(HookWithCleanup) && st.cells[c].subscribers == []
    requires st.stack != [] && UserOnTop(st) && st.cells[d].subscribers == []
    ensures var r := Get(st, d).0;
      && var n := |st.effects|;
      && |r.cells| == |st.cells| && |r.effects| == n + 1 && Top(st) < n
      && r.effects[n] == Effect(Inner(d), [Remover(c, n)], 1)
      && r.effects[Top(st)].removers == st.effects[Top(st)].removers + [Remover(d, Top(st))]
      && r.effects[Top(st)].body == st.effects[Top(st)].body
      && r.cells[c].subscribers == [n] && r.cells[c].subscribeCalls == st.cells[c].subscribeCalls + 1
      && r.cells[c].cleanup == HookCleanup && r.cells[c].cleanupCalls == st.cells[c].cleanupCalls
      && r.cells[d].subscribers == [Top(st)] && r.cells[d].cleanup == InnerCleanup(n)
  {
    var n := |st.effects|;
    assert CellOk(st, d) && st.cells[d].kind.deps[0] == c;
    var st1 := FirstReadIs(st, d);
    assert st1.cells[c] == st.cells[c];
    HookCreateInner(st1, d, c);
    var st2 := CreateInner(st1, d).0;
    assert st2.effects[Top(st)] == st.effects[Top(st)];
    var st3 := SetInnerCleanup(st2, d, n);
    assert st3.cells[c] == st2.cells[c];
  }

  /** `effect(() => derivedSignal())` over derived cell `d`, whose one
      dependency `c` is plain with a cleanup-returning hook, neither having
      a subscriber: the user effect `e` and `d`'s inner effect `e + 1` are
      created; `e` holds the one remover for `d`, `e + 1` the one for `c`;
      the hook fired once. */
  lemma HookEffect<V>(st: State<V>, d: SigId, c: SigId)
    requires Valid(st) && st.stack == [] && d < |st.cells| && st.cells[d].kind.Derived? && st.cells[d].kind.deps == [c]
    requires c < |st.cells| && st.cells[c].kind == Plain(HookWithCleanup) && st.cells[c].subscribers == []
    requires st.cells[d].subscribers == []
    ensures CreateEffect(st, [Read(d)]).1 == |st.effects|
    ensures var r := CreateEffect(st, [Read(d)]).0;
      && var e := |st.effects|;
      && |r.cells| == |st.cells| && |r.effects| == e + 2
      && r.effects[e].body == User([Read(d)]) && r.effects[e].removers == [Remover(d, e)]
      && r.effects[e + 1] == Effect(Inner(d), [Remover(c, e + 1)], 1)
      && r.cells[c].subscribers == [e + 1] && r.cells[c].subscribeCalls == st.cells[c].subscribeCalls + 1
      && r.cells[c].cleanup == HookCleanup && r.cells[c].cleanupCalls == st.cells[c].cleanupCalls
      && r.cells[d].subscribers == [e] && r.cells[d].cleanup == InnerCleanup(e + 1)
  {
    var e := |st.effects|;
    CreateEffectReadOnce(st, d);
    var s1 := Started(st, [Read(d)]);
    assert s1.cells == st.cells && Top(s1) == e && s1.effects[e].removers == [];
    HookFirstRead(s1, d, c);
  }

  /** The hook test with a derived cell (src/signal/signals.test.js:41-66):
      an effect reading the derived cell makes the upstream hook run once
      and hold its cleanup; unsubscribing that effect takes the derived
      cell's only subscriber away, which unsubscribes its inner effect,
      which leaves the upstream cell with no subscriber, so the cleanup runs
      once. Subscribe and cleanup calls go (1, 0) then (1, 1) past their
      starting counts. */
  lemma HookWithDerived<V>(st: State<V>, d: SigId, c: SigId)
    requires Valid(st) && Linked(st) && CleanupHeld(st) && st.stack == []
    requires d < |st.cells| && st.cells[d].kind.Derived? && st.cells[d].kind.deps == [c]
    requires c < |st.cells| && st.cells[c].kind == Plain(HookWithCleanup) && st.cells[c].subscribers == []
    requires st.cells[d].subscribers == []
    ensures var st1 := CreateEffect(st, [Read(d)]).0;
      && var st2 := Unsubscribe(st1, CreateEffect(st, [Read(d)]).1);
      && st1.cells[c].subscribeCalls == st.cells[c].subscribeCalls + 1
      && st1.cells[c].cleanupCalls == st.cells[c].cleanupCalls
      && st2.cells[c].subscribeCalls == st.cells[c].subscribeCalls + 1
      && st2.cells[c].cleanupCalls == st.cells[c].cleanupCalls + 1
      && st2.cells[c].subscribers == [] && st2.cells[d].subscribers == []
  {
    var e := |st.effects|;
    HookEffect(st, d, c);
    var st1 := CreateEffect(st, [Read(d)]).0;
    GrowsKeepsLinked(st, st1);
    UnsubscribeSingle(st1, e, d);
    DerivedCooling(st1, d, e);
    var st2 := Remove(st1, Remover(d, e));
    if st2.cells[c].subscribers != [] {
      ShrinkAt(st1, st2, c, st2.cells[c].subscribers[0]);
    }
    RemoveHookCleanup(st1, Remover(d, e), c);
  }
}
