/** The reactive engine of `signals.ts` as a state machine over values.

    Every closure of the source becomes an index: a signal or derived cell is a
    `SigId` into `cells`, an effect callback is an `EffId` into `effects`, and
    the remover closure that `get` puts into an effect's unsubscribe set is a
    `Remover(cell, effect)` record. The module-level variables of the source
    (`microtaskQueued`, `tickPromise`, `awaiting`, `processed`, `effectStack`)
    are fields of `State`. The class `Signals.Engine` keeps the same components
    in fields that its methods update in place; the functions here are what
    those methods are proved to compute. */
module SignalsModel {
  import opened OrderedSet

  type SigId = nat
  type EffId = nat

  datatype Option<T> = None | Some(value: T)

  /** The optional `onSubscribe` argument of `signal`: absent, returning nothing,
      or returning a cleanup function. Calls are counted instead of run. */
  datatype Hook = NoHook | HookOnly | HookWithCleanup

  /** A cell made by `signal` or by `derived`. A derived cell's `calculate`
      reads `deps` in order and combines the values read. */
  datatype Kind<!V> =
    | Plain(hook: Hook)
    | Derived(deps: seq<SigId>, combine: seq<V> -> V)

  /** The closure variable `cleanup`: unset, the cleanup returned by
      `onSubscribe`, or the unsubscribe of a derived cell's inner effect. */
  datatype Cleanup = NoCleanup | HookCleanup | InnerCleanup(inner: EffId)

  /** The closure state of one cell: `currentValue` (`None` is `undefined`, the
      initial value of a derived cell), `subscribers`, `cleanup`, and counters of
      the calls to `onSubscribe`, to its cleanup and to `calculate`. */
  datatype Cell<!V> = Cell(
    kind: Kind<V>,
    value: Option<V>,
    subscribers: seq<EffId>,
    cleanup: Cleanup,
    subscribeCalls: nat,
    cleanupCalls: nat,
    calculateCalls: nat)

  /** One step of a user effect's callback: a getter call or a setter call. */
  datatype Instr<V> = Read(cell: SigId) | Write(cell: SigId, value: V)

  /** The callback of an effect: a user script, or the inner effect that a
      derived cell `owner` creates when it gains its first subscriber. */
  datatype Body<V> = User(script: seq<Instr<V>>) | Inner(owner: SigId)

  /** The closure `get` adds to an unsubscribe set: it deletes `effect` from
      the subscribers of `cell`. */
  datatype Remover = Remover(cell: SigId, effect: EffId)

  /** An effect: its callback, its unsubscribe set (in insertion order; every
      `get` adds a fresh closure, so repeats are kept) and how often the
      callback has run. */
  datatype Effect<V> = Effect(body: Body<V>, removers: seq<Remover>, calls: nat)

  /** The whole engine. `ticksCreated` counts the tick promises made so far and
      `ticksResolved` those resolved; `tick()` returns promise `ticksCreated`. */
  datatype State<!V> = State(
    cells: seq<Cell<V>>,
    effects: seq<Effect<V>>,
    stack: seq<EffId>,
    awaiting: seq<SigId>,
    processed: set<EffId>,
    queued: bool,
    ticksCreated: nat,
    ticksResolved: nat)

  // ---------------------------------------------------------------------------
  // Well-formedness

  ghost predicate ScriptOk<V>(st: State<V>, script: seq<Instr<V>>)
  {
    forall i :: 0 <= i < |script| ==>
      match script[i]
      case Read(c) => c < |st.cells|
      case Write(c, _) => c < |st.cells| && st.cells[c].kind.Plain?
  }

  ghost predicate CellOk<V>(st: State<V>, c: SigId)
    requires c < |st.cells|
  {
    var cell := st.cells[c];
    && NoDups(cell.subscribers)
    && (forall x :: x in cell.subscribers ==> x < |st.effects|)
    && (match cell.kind
        case Plain(_) =>
          && cell.value.Some? && !cell.cleanup.InnerCleanup?
          && cell.cleanupCalls + (if cell.cleanup == HookCleanup then 1 else 0) <= cell.subscribeCalls
        case Derived(deps, _) =>
          (forall i :: 0 <= i < |deps| ==> deps[i] < c) && !cell.cleanup.HookCleanup?)
    && (cell.cleanup.InnerCleanup? ==>
          cell.cleanup.inner < |st.effects| && st.effects[cell.cleanup.inner].body == Inner(c))
  }

  ghost predicate EffectOk<V>(st: State<V>, e: EffId)
    requires e < |st.effects|
  {
    var eff := st.effects[e];
    && (match eff.body
        case User(script) => ScriptOk(st, script)
        case Inner(d) =>
          d < |st.cells| && st.cells[d].kind.Derived? &&
          forall i :: 0 <= i < |eff.removers| ==> eff.removers[i].cell < d)
    && forall i :: 0 <= i < |eff.removers| ==>
         eff.removers[i].cell < |st.cells| && eff.removers[i].effect == e
  }

  /** The invariant every reachable state keeps, including the states in the
      middle of a callback. */
  ghost predicate Valid<V>(st: State<V>)
  {
    && (forall c :: 0 <= c < |st.cells| ==> CellOk(st, c))
    && (forall e :: 0 <= e < |st.effects| ==> EffectOk(st, e))
    && (forall i :: 0 <= i < |st.stack| ==> st.stack[i] < |st.effects|)
    && NoDups(st.awaiting)
    && (forall x :: x in st.awaiting ==> x < |st.cells|)
    && st.ticksCreated == st.ticksResolved + (if st.queued then 1 else 0)
  }

  /** What a nested run may not change: the cells and their kinds, the effects
      already made and their callbacks, and the effect stack. */
  ghost predicate Extends<V>(st: State<V>, st': State<V>)
  {
    && |st'.cells| == |st.cells|
    && (forall c :: 0 <= c < |st.cells| ==> st'.cells[c].kind == st.cells[c].kind)
    && |st.effects| <= |st'.effects|
    && (forall e :: 0 <= e < |st.effects| ==> st'.effects[e].body == st.effects[e].body)
    && st'.stack == st.stack
    && st.awaiting <= st'.awaiting
    && (st.queued ==> st'.queued)
    && st'.processed == st.processed && st'.ticksResolved == st.ticksResolved
  }

  /** What a nested call may change: see `Extends` and `Grows`; and it runs
      no callback that existed before it. */
  ghost predicate Nested<V>(st: State<V>, r: State<V>)
  {
    Extends(st, r) && SameCalls(st, r) && Grows(st, r)
  }

  /** What a read outside any effect may change: the caches and the
      `calculate` counters of derived cells, nothing else. */
  ghost predicate Quiet<V>(st: State<V>, r: State<V>)
  {
    && r.effects == st.effects && r.stack == st.stack && r.awaiting == st.awaiting
    && r.processed == st.processed && r.queued == st.queued
    && r.ticksCreated == st.ticksCreated && r.ticksResolved == st.ticksResolved
    && |r.cells| == |st.cells|
    && forall c :: 0 <= c < |st.cells| ==> SameButCache(st.cells[c], r.cells[c])
  }

  ghost predicate SameButCache<V>(a: Cell<V>, b: Cell<V>)
  {
    && b.kind == a.kind && b.subscribers == a.subscribers && b.cleanup == a.cleanup
    && b.subscribeCalls == a.subscribeCalls && b.cleanupCalls == a.cleanupCalls
    && (a.kind.Plain? ==> b.value == a.value)
  }

  lemma QuietTrans<V>(a: State<V>, b: State<V>, c: State<V>)
    requires Quiet(a, b) && Quiet(b, c)
    ensures Quiet(a, c)
  {
    forall x | 0 <= x < |a.cells| ensures SameButCache(a.cells[x], c.cells[x]) {
      assert SameButCache(a.cells[x], b.cells[x]) && SameButCache(b.cells[x], c.cells[x]);
    }
  }

  lemma ExtendsTrans<V>(a: State<V>, b: State<V>, c: State<V>)
    requires Extends(a, b) && Extends(b, c)
    requires SameCalls(a, b) && SameCalls(b, c)
    ensures Extends(a, c) && SameCalls(a, c)
  {
  }

  /** Every subscription has its remover: an effect in the subscriber set of
      `c` holds the closure that deletes it from there. */
  ghost predicate Linked<V>(st: State<V>)
  {
    forall c, i :: 0 <= c < |st.cells| && 0 <= i < |st.cells[c].subscribers| ==>
      HasRemover(st, c, st.cells[c].subscribers[i])
  }

  /** Effect `x` holds the remover that deletes it from the subscribers of `c`. */
  ghost predicate HasRemover<V>(st: State<V>, c: SigId, x: EffId)
  {
    x < |st.effects| && Remover(c, x) in st.effects[x].removers
  }

  /** A cell holds a cleanup only while it has a subscriber. */
  ghost predicate CleanupHeld<V>(st: State<V>)
  {
    CleanupHeldBelow(st, |st.cells|)
  }

  /** `CleanupHeld` for the cells below `n`. */
  ghost predicate CleanupHeldBelow<V>(st: State<V>, n: nat)
  {
    forall c :: 0 <= c < n && c < |st.cells| && st.cells[c].cleanup != NoCleanup ==> st.cells[c].subscribers != []
  }

  /** Cells from `lo` on are unchanged: what held for them still holds. */
  lemma CleanupHeldLift<V>(st: State<V>, r: State<V>, lo: nat, hi: nat)
    requires |r.cells| == |st.cells| && CellsFromUnchanged(st, r, lo) && lo <= hi
    requires CleanupHeldBelow(st, lo) ==> CleanupHeldBelow(r, lo)
    ensures CleanupHeldBelow(st, hi) ==> CleanupHeldBelow(r, hi)
  {
    if CleanupHeldBelow(st, hi) {
      forall c | 0 <= c < hi && c < |r.cells| && r.cells[c].cleanup != NoCleanup
        ensures r.cells[c].subscribers != []
      {
        if lo <= c {
          assert r.cells[c] == st.cells[c];
        }
      }
    }
  }

  /** What reads inside an effect do to subscriptions: subscriber sets and
      unsubscribe sets only grow, every new subscription comes with its
      remover, and a held cleanup keeps a subscriber. */
  ghost predicate Grows<V>(st: State<V>, r: State<V>)
  {
    && |r.cells| == |st.cells| && |st.effects| <= |r.effects|
    && (forall c, i :: 0 <= c < |st.cells| && 0 <= i < |st.cells[c].subscribers| ==>
          st.cells[c].subscribers[i] in r.cells[c].subscribers)
    && (forall e :: 0 <= e < |st.effects| ==> st.effects[e].removers <= r.effects[e].removers)
    && (forall c, i ::
          0 <= c < |st.cells| && 0 <= i < |r.cells[c].subscribers| && r.cells[c].subscribers[i] !in st.cells[c].subscribers
          ==> HasRemover(r, c, r.cells[c].subscribers[i]))
    && (CleanupHeld(st) ==> CleanupHeld(r))
  }

  lemma GrowsTrans<V>(a: State<V>, b: State<V>, c: State<V>)
    requires Grows(a, b) && Grows(b, c)
    ensures Grows(a, c)
  {
    forall e | 0 <= e < |a.effects| ensures a.effects[e].removers <= c.effects[e].removers {
      assert a.effects[e].removers <= b.effects[e].removers;
    }
    forall c', i | 0 <= c' < |a.cells| && 0 <= i < |a.cells[c'].subscribers|
      ensures a.cells[c'].subscribers[i] in c.cells[c'].subscribers
    {
      assert a.cells[c'].subscribers[i] in b.cells[c'].subscribers;
      var j :| 0 <= j < |b.cells[c'].subscribers| && b.cells[c'].subscribers[j] == a.cells[c'].subscribers[i];
    }
    forall c', i | 0 <= c' < |a.cells| && 0 <= i < |c.cells[c'].subscribers| && c.cells[c'].subscribers[i] !in a.cells[c'].subscribers
      ensures HasRemover(c, c', c.cells[c'].subscribers[i])
    {
      var x := c.cells[c'].subscribers[i];
      if x in b.cells[c'].subscribers {
        var j :| 0 <= j < |b.cells[c'].subscribers| && b.cells[c'].subscribers[j] == x;
        assert HasRemover(b, c', x);
        assert b.effects[x].removers <= c.effects[x].removers;
      }
    }
  }

  lemma GrowsRefl<V>(st: State<V>)
    ensures Grows(st, st)
  {
  }

  /** A step that touches no cell and no unsubscribe set. */
  lemma SameCellsGrows<V>(st: State<V>, r: State<V>)
    requires r.cells == st.cells && |st.effects| <= |r.effects|
    requires forall e :: 0 <= e < |st.effects| ==> r.effects[e].removers == st.effects[e].removers
    ensures Grows(st, r)
  {
  }

  lemma CellsFromTrans<V>(a: State<V>, b: State<V>, c: State<V>, n1: nat, n2: nat)
    requires |b.cells| == |a.cells| && |c.cells| == |a.cells|
    requires CellsFromUnchanged(a, b, n1) && CellsFromUnchanged(b, c, n2)
    ensures CellsFromUnchanged(a, c, if n1 < n2 then n2 else n1)
  {
  }

  /** Linked states stay linked under growth. */
  lemma GrowsKeepsLinked<V>(st: State<V>, r: State<V>)
    requires Grows(st, r) && Linked(st)
    ensures Linked(r)
  {
    forall c, i | 0 <= c < |r.cells| && 0 <= i < |r.cells[c].subscribers|
      ensures HasRemover(r, c, r.cells[c].subscribers[i])
    {
      var x := r.cells[c].subscribers[i];
      if x in st.cells[c].subscribers {
        var j :| 0 <= j < |st.cells[c].subscribers| && st.cells[c].subscribers[j] == x;
        assert HasRemover(st, c, x);
        assert st.effects[x].removers <= r.effects[x].removers;
      }
    }
  }

  /** No subscriber set, no `cleanup` and no unsubscribe set has changed. */
  ghost predicate SameSubscriptions<V>(st: State<V>, st': State<V>)
    requires |st'.cells| == |st.cells| && |st.effects| <= |st'.effects|
  {
    && (forall c :: 0 <= c < |st.cells| ==>
          st'.cells[c].subscribers == st.cells[c].subscribers && st'.cells[c].cleanup == st.cells[c].cleanup)
    && (forall e :: 0 <= e < |st.effects| ==> st'.effects[e].removers == st.effects[e].removers)
  }

  /** No callback that existed before has run. */
  ghost predicate SameCalls<V>(st: State<V>, st': State<V>)
    requires |st.effects| <= |st'.effects|
  {
    forall e :: 0 <= e < |st.effects| ==> st'.effects[e].calls == st.effects[e].calls
  }

  /** The same cells, of the same kinds. */
  ghost predicate SameKinds<V>(st: State<V>, r: State<V>)
  {
    |r.cells| == |st.cells| && forall c :: 0 <= c < |st.cells| ==> r.cells[c].kind == st.cells[c].kind
  }

  /** The same cells, of the same kinds, and every plain signal holds the
      same value. */
  ghost predicate SameSignals<V>(st: State<V>, r: State<V>)
  {
    && SameKinds(st, r)
    && forall c :: 0 <= c < |st.cells| && st.cells[c].kind.Plain? ==> r.cells[c].value == st.cells[c].value
  }

  /** A getter may be called with effect `top` on top of the stack only from
      cells below the owner of `top` when `top` is an inner effect: `calculate`
      of a derived cell reads only cells made before it. */
  ghost predicate ReadableBelow<V>(st: State<V>, bound: nat)
  {
    st.stack == [] ||
    var top := st.stack[|st.stack| - 1];
    top < |st.effects| &&
    (st.effects[top].body.User? || bound <= st.effects[top].body.owner)
  }

  /** Same cells and effects, of the same kinds and with the same callbacks. */
  ghost predicate SameShape<V>(st: State<V>, st': State<V>)
  {
    && |st'.cells| == |st.cells| && |st'.effects| == |st.effects|
    && (forall c :: 0 <= c < |st.cells| ==> st'.cells[c].kind == st.cells[c].kind)
    && (forall e :: 0 <= e < |st.effects| ==> st'.effects[e].body == st.effects[e].body)
  }

  lemma ShapeKeepsScript<V>(st: State<V>, st': State<V>, script: seq<Instr<V>>)
    requires SameShape(st, st') && ScriptOk(st, script)
    ensures ScriptOk(st', script)
  {
    forall i | 0 <= i < |script|
      ensures match script[i]
              case Read(c) => c < |st'.cells|
              case Write(c, _) => c < |st'.cells| && st'.cells[c].kind.Plain?
    {
      match script[i]
      case Read(c) =>
      case Write(c, _) => assert st'.cells[c].kind == st.cells[c].kind;
    }
  }

  /** Fields outside `cells` and `effects` matter to `Valid` only through the
      stack, `awaiting` and the tick counters. */
  lemma OtherFieldsUpdated<V>(st: State<V>, st': State<V>)
    requires Valid(st) && st'.cells == st.cells && st'.effects == st.effects
    requires forall i :: 0 <= i < |st'.stack| ==> st'.stack[i] < |st'.effects|
    requires NoDups(st'.awaiting) && forall x :: x in st'.awaiting ==> x < |st'.cells|
    requires st'.ticksCreated == st'.ticksResolved + (if st'.queued then 1 else 0)
    ensures Valid(st')
  {
    assert SameShape(st, st');
    forall c | 0 <= c < |st'.cells| ensures CellOk(st', c) {
      assert CellOk(st, c);
    }
    forall e | 0 <= e < |st'.effects| ensures EffectOk(st', e) {
      assert EffectOk(st, e);
      if st.effects[e].body.User? { ShapeKeepsScript(st, st', st.effects[e].body.script); }
    }
  }

  /** Replacing one cell by a well-formed one of the same kind keeps `Valid`. */
  lemma CellUpdated<V>(st: State<V>, c: SigId, cell: Cell<V>)
    requires Valid(st) && c < |st.cells| && cell.kind == st.cells[c].kind
    requires CellOk(st.(cells := st.cells[c := cell]), c)
    ensures Valid(st.(cells := st.cells[c := cell]))
  {
    var st' := st.(cells := st.cells[c := cell]);
    assert SameShape(st, st');
    forall c' | 0 <= c' < |st'.cells| ensures CellOk(st', c') {
      if c' != c { assert CellOk(st, c'); }
    }
    forall e | 0 <= e < |st'.effects| ensures EffectOk(st', e) {
      assert EffectOk(st, e);
      if st.effects[e].body.User? { ShapeKeepsScript(st, st', st.effects[e].body.script); }
    }
  }

  /** Replacing one effect by a well-formed one with the same callback keeps `Valid`. */
  lemma EffectUpdated<V>(st: State<V>, e: EffId, eff: Effect<V>)
    requires Valid(st) && e < |st.effects| && eff.body == st.effects[e].body
    requires EffectOk(st.(effects := st.effects[e := eff]), e)
    ensures Valid(st.(effects := st.effects[e := eff]))
  {
    var st' := st.(effects := st.effects[e := eff]);
    assert SameShape(st, st');
    forall c | 0 <= c < |st'.cells| ensures CellOk(st', c) {
      assert CellOk(st, c);
    }
    forall e' | 0 <= e' < |st'.effects| ensures EffectOk(st', e') {
      assert EffectOk(st, e');
      if st.effects[e'].body.User? { ShapeKeepsScript(st, st', st.effects[e'].body.script); }
    }
  }

  /** The callback of a new effect is well formed. */
  ghost predicate BodyOk<V>(st: State<V>, body: Body<V>)
  {
    match body
    case User(script) => ScriptOk(st, script)
    case Inner(d) => d < |st.cells| && st.cells[d].kind.Derived?
  }

  /** Pushing a fresh effect with a well-formed callback keeps `Valid`. */
  lemma NewEffectValid<V>(st: State<V>, body: Body<V>)
    requires Valid(st) && BodyOk(st, body)
    ensures Valid(st.(effects := st.effects + [Effect(body, [], 0)], stack := st.stack + [|st.effects|]))
  {
    var st' := st.(effects := st.effects + [Effect(body, [], 0)], stack := st.stack + [|st.effects|]);
    forall c' | 0 <= c' < |st'.cells| ensures CellOk(st', c') {
      assert CellOk(st, c');
    }
    forall e | 0 <= e < |st'.effects| ensures EffectOk(st', e) {
      if e < |st.effects| {
        assert EffectOk(st, e);
        assert st'.effects[e] == st.effects[e];
      }
      var b := st'.effects[e].body;
      if b.User? {
        assert ScriptOk(st, b.script);
        forall i | 0 <= i < |b.script|
          ensures match b.script[i]
                  case Read(x) => x < |st'.cells|
                  case Write(x, _) => x < |st'.cells| && st'.cells[x].kind.Plain?
        {
        }
      }
    }
  }

  /** Appending a cell whose derived dependencies exist keeps `Valid`. */
  lemma NewCellValid<V>(st: State<V>, cell: Cell<V>)
    requires Valid(st)
    requires cell.subscribers == [] && cell.cleanup == NoCleanup && cell.cleanupCalls == 0
    requires match cell.kind
             case Plain(_) => cell.value.Some?
             case Derived(deps, _) => forall i :: 0 <= i < |deps| ==> deps[i] < |st.cells|
    ensures Valid(st.(cells := st.cells + [cell]))
  {
    var st' := st.(cells := st.cells + [cell]);
    forall c | 0 <= c < |st'.cells| ensures CellOk(st', c) {
      if c < |st.cells| {
        assert CellOk(st, c);
        assert st'.cells[c] == st.cells[c];
      }
    }
    forall e | 0 <= e < |st'.effects| ensures EffectOk(st', e) {
      assert EffectOk(st, e);
      var b := st.effects[e].body;
      if b.User? {
        assert ScriptOk(st, b.script);
        forall i | 0 <= i < |b.script|
          ensures match b.script[i]
                  case Read(x) => x < |st'.cells|
                  case Write(x, _) => x < |st'.cells| && st'.cells[x].kind.Plain?
        {
          match b.script[i]
          case Read(x) =>
          case Write(x, _) => assert st'.cells[x] == st.cells[x];
        }
      }
    }
  }

  // ---------------------------------------------------------------------------
  // Single-field updates

  function AddSubscriber<V>(st: State<V>, c: SigId, e: EffId): (r: State<V>)
    requires Valid(st) && c < |st.cells| && e < |st.effects|
    ensures Valid(r) && Extends(st, r) && SameCalls(st, r)
    ensures r.effects == st.effects && r.cells[c].value == st.cells[c].value
    ensures r.cells[c] == st.cells[c].(subscribers := Add(st.cells[c].subscribers, e))
    ensures forall c' :: 0 <= c' < |st.cells| && c' != c ==> r.cells[c'] == st.cells[c']
    ensures CellsFromUnchanged(st, r, c + 1)
  {
    var cell := st.cells[c].(subscribers := Add(st.cells[c].subscribers, e));
    assert CellOk(st, c);
    CellUpdated(st, c, cell);
    st.(cells := st.cells[c := cell])
  }

  /** `cleanup = onSubscribe()`, counted. */
  function FireOnSubscribe<V>(st: State<V>, c: SigId): (r: State<V>)
    requires Valid(st) && c < |st.cells| && st.cells[c].kind.Plain? && st.cells[c].subscribers != []
    ensures Valid(r) && Extends(st, r) && SameCalls(st, r) && Grows(st, r)
    ensures r.cells[c].subscribeCalls == st.cells[c].subscribeCalls + 1
    ensures r.cells[c].cleanupCalls == st.cells[c].cleanupCalls
    ensures r.cells[c].cleanup == if st.cells[c].kind.hook == HookWithCleanup then HookCleanup else NoCleanup
    ensures r.effects == st.effects && r.cells[c].value == st.cells[c].value
    ensures r.cells[c].subscribers == st.cells[c].subscribers
    ensures r.cells[c].kind == st.cells[c].kind && r.cells[c].calculateCalls == st.cells[c].calculateCalls
    ensures forall c' :: 0 <= c' < |st.cells| && c' != c ==> r.cells[c'] == st.cells[c']
    ensures CellsFromUnchanged(st, r, c + 1)
  {
    var cell := st.cells[c];
    var cleanup := if cell.kind.hook == HookWithCleanup then HookCleanup else NoCleanup;
    var cell' := cell.(subscribeCalls := cell.subscribeCalls + 1, cleanup := cleanup);
    assert CellOk(st, c);
    CellUpdated(st, c, cell');
    st.(cells := st.cells[c := cell'])
  }

  function AddRemover<V>(st: State<V>, r: Remover): (r': State<V>)
    requires Valid(st) && r.effect < |st.effects| && r.cell < |st.cells|
    requires st.effects[r.effect].body.Inner? ==> r.cell < st.effects[r.effect].body.owner
    ensures Valid(r') && Extends(st, r') && SameCalls(st, r') && r'.cells == st.cells
    ensures |r'.effects| == |st.effects| && r'.effects[r.effect].body == st.effects[r.effect].body
    ensures r'.effects[r.effect].removers == st.effects[r.effect].removers + [r]
    ensures forall e :: 0 <= e < |st.effects| && e != r.effect ==> r'.effects[e] == st.effects[e]
  {
    var eff := st.effects[r.effect];
    var eff' := eff.(removers := eff.removers + [r]);
    assert EffectOk(st, r.effect);
    EffectUpdated(st, r.effect, eff');
    st.(effects := st.effects[r.effect := eff'])
  }

  /** `currentValue = v`. */
  function SetCache<V>(st: State<V>, c: SigId, v: V): (r: State<V>)
    requires Valid(st) && c < |st.cells|
    ensures Valid(r) && Extends(st, r) && SameCalls(st, r) && Grows(st, r)
    ensures r.effects == st.effects && r.cells[c].value == Some(v)
    ensures CellsFromUnchanged(st, r, c + 1)
    ensures r.cells == st.cells[c := st.cells[c].(value := Some(v))]
    ensures st.cells[c].kind.Derived? ==> Quiet(st, r) && SameSignals(st, r)
  {
    var cell := st.cells[c].(value := Some(v));
    assert CellOk(st, c);
    CellUpdated(st, c, cell);
    st.(cells := st.cells[c := cell])
  }

  /** `cleanup = effect(...)` in derived cell `c`. */
  function SetInnerCleanup<V>(st: State<V>, c: SigId, inner: EffId): (r: State<V>)
    requires Valid(st) && c < |st.cells| && st.cells[c].kind.Derived?
    requires inner < |st.effects| && st.effects[inner].body == Inner(c) && st.cells[c].subscribers != []
    ensures Valid(r) && Extends(st, r) && SameCalls(st, r) && Grows(st, r)
    ensures r.cells == st.cells[c := st.cells[c].(cleanup := InnerCleanup(inner))] && r.effects == st.effects
  {
    var cell := st.cells[c].(cleanup := InnerCleanup(inner));
    assert CellOk(st, c);
    CellUpdated(st, c, cell);
    st.(cells := st.cells[c := cell])
  }

  function CountCalculate<V>(st: State<V>, c: SigId): (r: State<V>)
    requires Valid(st) && c < |st.cells|
    ensures Valid(r) && Extends(st, r) && SameCalls(st, r) && Grows(st, r)
    ensures r.cells == st.cells[c := st.cells[c].(calculateCalls := st.cells[c].calculateCalls + 1)]
    ensures CellsFromUnchanged(st, r, c + 1) && Quiet(st, r) && SameSignals(st, r)
  {
    var cell := st.cells[c].(calculateCalls := st.cells[c].calculateCalls + 1);
    assert CellOk(st, c);
    CellUpdated(st, c, cell);
    st.(cells := st.cells[c := cell])
  }

  /** `awaiting.add(subscribers)` followed by the at-most-once scheduling of
      `notify` (signals.ts:69-74 and 136-141). */
  function Schedule<V>(st: State<V>, c: SigId): (r: State<V>)
    requires Valid(st) && c < |st.cells|
    ensures Valid(r) && Extends(st, r) && SameCalls(st, r) && Grows(st, r)
    ensures r.cells == st.cells && r.effects == st.effects && r.processed == st.processed
    ensures r.awaiting == Add(st.awaiting, c) && r.queued
    ensures r.ticksCreated == st.ticksCreated + (if st.queued then 0 else 1)
    ensures r.ticksResolved == st.ticksResolved
  {
    var st1 := st.(awaiting := Add(st.awaiting, c));
    var r := if st.queued then st1 else st1.(queued := true, ticksCreated := st.ticksCreated + 1);
    OtherFieldsUpdated(st, r);
    r
  }

  // ---------------------------------------------------------------------------
  // The setter and the getter

  /** The setter of a plain signal: overwrite, with no equality test, and schedule. */
  function SetSignal<V>(st: State<V>, c: SigId, v: V): (r: State<V>)
    requires Valid(st) && c < |st.cells| && st.cells[c].kind.Plain?
    ensures Valid(r) && Extends(st, r) && SameCalls(st, r) && Grows(st, r)
    ensures |st.effects| == |r.effects| && SameSubscriptions(st, r)
    ensures r.cells == st.cells[c := st.cells[c].(value := Some(v))] && r.effects == st.effects
    ensures r.awaiting == Add(st.awaiting, c) && r.queued && r.processed == st.processed
    ensures r.ticksCreated == st.ticksCreated + (if st.queued then 0 else 1) && r.ticksResolved == st.ticksResolved
  {
    Schedule(SetCache(st, c, v), c)
  }

  /** Subscribing `top` to `c`, then whatever grows in between, then recording
      the remover: subscriptions grow, each new one linked. */
  lemma SubscribeGrows<V>(st: State<V>, c: SigId, top: EffId, st2: State<V>, r: State<V>)
    requires Valid(st) && c < |st.cells| && top < |st.effects|
    requires Grows(AddSubscriber(st, c, top), st2)
    requires top < |st2.effects| && r.cells == st2.cells && |r.effects| == |st2.effects|
    requires r.effects[top].removers == st2.effects[top].removers + [Remover(c, top)]
    requires forall e :: 0 <= e < |st2.effects| && e != top ==> r.effects[e] == st2.effects[e]
    ensures Grows(st, r)
  {
    var st1 := AddSubscriber(st, c, top);
    forall e | 0 <= e < |st.effects| ensures st.effects[e].removers <= r.effects[e].removers {
      assert st1.effects[e].removers <= st2.effects[e].removers;
    }
    forall c', x | 0 <= c' < |st.cells| && x in r.cells[c'].subscribers && x !in st.cells[c'].subscribers
      ensures x < |r.effects| && Remover(c', x) in r.effects[x].removers
    {
      if x in st1.cells[c'].subscribers {
        assert c' == c && x == top;
        assert r.effects[top].removers[|r.effects[top].removers| - 1] == Remover(c, top);
      } else {
        assert Remover(c', x) in st2.effects[x].removers;
      }
    }
    if CleanupHeld(st) {
      assert CleanupHeld(st1);
    }
  }

  /** The getter of cell `c` (signals.ts:50-66 for a plain signal,
      126-157 for a derived one). Returns the new state and the value read. */
  function Get<V(==)>(st: State<V>, c: SigId): (r: (State<V>, V))
    requires Valid(st) && c < |st.cells| && ReadableBelow(st, c + 1)
    ensures Valid(r.0) && Extends(st, r.0) && SameCalls(st, r.0) && Grows(st, r.0)
    ensures CellsFromUnchanged(st, r.0, c + 1)
    ensures st.stack == [] ==> Quiet(st, r.0)
    ensures st.cells[c].kind.Plain? ==> Some(r.1) == st.cells[c].value
    ensures r.0.cells[c].value == Some(r.1)
    decreases c, 7, 0
  {
    if st.cells[c].kind.Plain? then
      if st.stack == [] then
        assert CellOk(st, c);
        (st, st.cells[c].value.value)
      else TrackPlain(st, c)
    else if st.stack == [] then ColdRead(st, c)
    else TrackDerived(st, c)
  }

  /** The getter of a plain signal inside an effect: subscribe the top effect,
      fire `onSubscribe` when the set then has exactly one member, record the
      remover, return the value (signals.ts:51-65). */
  function TrackPlain<V>(st: State<V>, c: SigId): (r: (State<V>, V))
    requires Valid(st) && c < |st.cells| && st.cells[c].kind.Plain? && st.stack != []
    requires ReadableBelow(st, c + 1)
    ensures Valid(r.0) && Extends(st, r.0) && SameCalls(st, r.0) && Grows(st, r.0)
    ensures CellsFromUnchanged(st, r.0, c + 1)
    ensures r.0.cells[c].value == Some(r.1) == st.cells[c].value
    ensures var top := st.stack[|st.stack| - 1];
      && var subs := Add(st.cells[c].subscribers, top);
      && var fires := st.cells[c].kind.hook != NoHook && |subs| == 1;
      && r.0.cells[c].subscribers == subs
      && r.0.cells[c].subscribeCalls == st.cells[c].subscribeCalls + (if fires then 1 else 0)
      && r.0.cells[c].cleanup == (if !fires then st.cells[c].cleanup
                                  else if st.cells[c].kind.hook == HookWithCleanup then HookCleanup else NoCleanup)
      && r.0.cells[c].cleanupCalls == st.cells[c].cleanupCalls
      && r.0.effects[top].removers == st.effects[top].removers + [Remover(c, top)]
      && r.0.cells[c].calculateCalls == st.cells[c].calculateCalls
      && |r.0.effects| == |st.effects|
      && forall e :: 0 <= e < |st.effects| && e != top ==> r.0.effects[e] == st.effects[e]
    ensures forall c' :: 0 <= c' < |st.cells| && c' != c ==> r.0.cells[c'] == st.cells[c']
  {
    var top := st.stack[|st.stack| - 1];
    var st1 := AddSubscriber(st, c, top);
    var st2 := SubscribeHook(st1, c);
    assert CellOk(st2, c);
    var st3 := AddRemover(st2, Remover(c, top));
    TrackPlainSubscribes(st, c, top, st1, st2, st3);
    (st3, st2.cells[c].value.value)
  }

  /** The three steps of `TrackPlain` composed. */
  lemma TrackPlainSubscribes<V>(st: State<V>, c: SigId, top: EffId, st1: State<V>, st2: State<V>, st3: State<V>)
    requires Valid(st) && c < |st.cells| && st.cells[c].kind.Plain? && top < |st.effects|
    requires (st.effects[top].body.Inner? ==> c < st.effects[top].body.owner)
    requires st1 == AddSubscriber(st, c, top) && st2 == SubscribeHook(st1, c)
    requires st3 == AddRemover(st2, Remover(c, top))
    ensures Valid(st3) && Extends(st, st3) && SameCalls(st, st3) && Grows(st, st3)
    ensures CellsFromUnchanged(st, st3, c + 1)
    ensures st3.cells[c].value == st.cells[c].value
    ensures var subs := Add(st.cells[c].subscribers, top);
      && var fires := st.cells[c].kind.hook != NoHook && |subs| == 1;
      && st3.cells[c].subscribers == subs
      && st3.cells[c].subscribeCalls == st.cells[c].subscribeCalls + (if fires then 1 else 0)
      && st3.cells[c].cleanup == (if !fires then st.cells[c].cleanup
                                  else if st.cells[c].kind.hook == HookWithCleanup then HookCleanup else NoCleanup)
      && st3.cells[c].cleanupCalls == st.cells[c].cleanupCalls
      && st3.effects[top].removers == st.effects[top].removers + [Remover(c, top)]
      && st3.cells[c].calculateCalls == st.cells[c].calculateCalls
      && |st3.effects| == |st.effects|
      && forall e :: 0 <= e < |st.effects| && e != top ==> st3.effects[e] == st.effects[e]
    ensures forall c' :: 0 <= c' < |st.cells| && c' != c ==> st3.cells[c'] == st.cells[c']
  {
    SubscribeGrows(st, c, top, st2, st3);
    ExtendsTrans(st, st1, st2);
    ExtendsTrans(st, st2, st3);
  }

  /** `if (onSubscribe && subscribers.size === 1) cleanup = onSubscribe()`
      (signals.ts:57-59), right after a subscriber was added. */
  function SubscribeHook<V>(st: State<V>, c: SigId): (r: State<V>)
    requires Valid(st) && c < |st.cells| && st.cells[c].kind.Plain? && st.cells[c].subscribers != []
    ensures Valid(r) && Extends(st, r) && SameCalls(st, r) && Grows(st, r)
    ensures CellsFromUnchanged(st, r, c + 1) && r.effects == st.effects
    ensures forall c' :: 0 <= c' < |st.cells| && c' != c ==> r.cells[c'] == st.cells[c']
    ensures r.cells[c].subscribers == st.cells[c].subscribers && r.cells[c].value == st.cells[c].value
    ensures r.cells[c].cleanupCalls == st.cells[c].cleanupCalls
    ensures r.cells[c].kind == st.cells[c].kind && r.cells[c].calculateCalls == st.cells[c].calculateCalls
    ensures r.cells[c].cleanup ==
      if st.cells[c].kind.hook != NoHook && |st.cells[c].subscribers| == 1 then
        (if st.cells[c].kind.hook == HookWithCleanup then HookCleanup else NoCleanup)
      else st.cells[c].cleanup
    ensures r.cells[c].subscribeCalls ==
      st.cells[c].subscribeCalls + (if st.cells[c].kind.hook != NoHook && |st.cells[c].subscribers| == 1 then 1 else 0)
  {
    if st.cells[c].kind.hook != NoHook && |st.cells[c].subscribers| == 1 then FireOnSubscribe(st, c)
    else GrowsRefl(st); st
  }

  /** The getter of a derived cell outside any effect: `currentValue = calculate()`
      and return it (signals.ts:153-156). */
  function ColdRead<V(==)>(st: State<V>, c: SigId): (r: (State<V>, V))
    requires Valid(st) && c < |st.cells| && st.cells[c].kind.Derived? && st.stack == []
    ensures Valid(r.0) && Extends(st, r.0) && SameCalls(st, r.0) && Grows(st, r.0)
    ensures CellsFromUnchanged(st, r.0, c + 1)
    ensures r.0.cells[c].calculateCalls == st.cells[c].calculateCalls + 1
    ensures Quiet(st, r.0)
    ensures r.0.cells[c].value == Some(r.1)
    decreases c, 6, 0
  {
    var (st1, v) := Calculate(st, c);
    (SetCache(st1, c, v), v)
  }

  /** The getter of a derived cell inside an effect (signals.ts:127-152):
      subscribe the top effect; if the set then has exactly one member, create
      the inner effect and keep its unsubscribe as `cleanup`, otherwise
      recompute with the top effect still tracking; record the remover. */
  function TrackDerived<V(==)>(st: State<V>, c: SigId): (r: (State<V>, V))
    requires Valid(st) && c < |st.cells| && st.cells[c].kind.Derived? && st.stack != []
    requires ReadableBelow(st, c + 1)
    ensures Valid(r.0) && Extends(st, r.0) && SameCalls(st, r.0) && Grows(st, r.0)
    ensures CellsFromUnchanged(st, r.0, c + 1)
    ensures r.0.cells[c].value == Some(r.1)
    ensures var top := st.stack[|st.stack| - 1];
      && var subs := Add(st.cells[c].subscribers, top);
      && r.0.cells[c].subscribers == subs
      && r.0.cells[c].calculateCalls == st.cells[c].calculateCalls + 1
      && (|subs| == 1 ==> Activated(st, r.0, c))
      && (|subs| != 1 ==> r.0.cells[c].cleanup == st.cells[c].cleanup)
      && HasRemover(r.0, c, top)
    decreases c, 6, 0
  {
    var top := st.stack[|st.stack| - 1];
    var st1 := AddSubscriber(st, c, top);
    var (st2, v) := SubscribedDerived(st1, c);
    var st3 := AddRemover(st2, Remover(c, top));
    ExtendsTrans(st, st1, st2);
    ExtendsTrans(st, st2, st3);
    SubscribeGrows(st, c, top, st2, st3);
    (st3, v)
  }

  /** A derived cell `c` has its first subscriber and made its inner effect:
      the new effect is the next id, has run once and is `c`'s cleanup, and `c`
      is enqueued. */
  ghost predicate Activated<V>(st: State<V>, r: State<V>, c: SigId)
  {
    && c < |r.cells| && |st.effects| < |r.effects|
    && r.effects[|st.effects|].body == Inner(c) && r.effects[|st.effects|].calls == 1
    && r.cells[c].cleanup == InnerCleanup(|st.effects|) && c in r.awaiting && r.queued
  }

  /** The derived getter right after `subscribers.add(callback)`
      (signals.ts:130-145): activate on a set of size one, else recompute. */
  function SubscribedDerived<V(==)>(st: State<V>, c: SigId): (r: (State<V>, V))
    requires Valid(st) && c < |st.cells| && st.cells[c].kind.Derived? && st.cells[c].subscribers != []
    requires ReadableBelow(st, c + 1)
    ensures Valid(r.0) && Extends(st, r.0) && SameCalls(st, r.0) && Grows(st, r.0)
    ensures CellsFromUnchanged(st, r.0, c + 1)
    ensures r.0.cells[c].value == Some(r.1)
    ensures r.0.cells[c].subscribers == st.cells[c].subscribers
    ensures r.0.cells[c].calculateCalls == st.cells[c].calculateCalls + 1
    ensures |st.cells[c].subscribers| == 1 ==> Activated(st, r.0, c)
    ensures |st.cells[c].subscribers| != 1 ==> r.0.cells[c].cleanup == st.cells[c].cleanup
    decreases c, 5, 1
  {
    if |st.cells[c].subscribers| == 1 then Activate(st, c) else TrackedRecompute(st, c)
  }

  /** The first-subscriber branch of the derived getter (signals.ts:130-142):
      `cleanup = effect(...)`, then the cached value is returned. */
  function Activate<V(==)>(st: State<V>, c: SigId): (r: (State<V>, V))
    requires Valid(st) && c < |st.cells| && st.cells[c].kind.Derived? && st.cells[c].subscribers != []
    ensures Valid(r.0) && Extends(st, r.0) && SameCalls(st, r.0) && Grows(st, r.0)
    ensures CellsFromUnchanged(st, r.0, c + 1)
    ensures r.0.cells[c].value == Some(r.1)
    ensures Activated(st, r.0, c)
    ensures r.0.cells[c].subscribers == st.cells[c].subscribers
    ensures r.0.cells[c].calculateCalls == st.cells[c].calculateCalls + 1
    decreases c, 5, 0
  {
    var (st2, inner) := CreateInner(st, c);
    assert st.cells[c].subscribers[0] in st2.cells[c].subscribers;
    var st3 := SetInnerCleanup(st2, c, inner);
    (st3, st3.cells[c].value.value)
  }

  /** The other branch (signals.ts:143-145): `currentValue = calculate()` while
      the reading effect stays on top of the stack. */
  function TrackedRecompute<V(==)>(st: State<V>, c: SigId): (r: (State<V>, V))
    requires Valid(st) && c < |st.cells| && st.cells[c].kind.Derived? && ReadableBelow(st, c + 1)
    ensures Valid(r.0) && Extends(st, r.0) && SameCalls(st, r.0) && Grows(st, r.0)
    ensures CellsFromUnchanged(st, r.0, c + 1)
    ensures r.0.cells[c].value == Some(r.1)
    ensures r.0.cells[c].subscribers == st.cells[c].subscribers && r.0.cells[c].cleanup == st.cells[c].cleanup
    ensures r.0.cells[c].calculateCalls == st.cells[c].calculateCalls + 1
    decreases c, 5, 0
  {
    var (st2, v) := Calculate(st, c);
    (SetCache(st2, c, v), v)
  }

  /** `calculate()` of derived cell `c`: counted, reads every dependency in
      order through its getter, and combines the values. */
  function Calculate<V(==)>(st: State<V>, c: SigId): (r: (State<V>, V))
    requires Valid(st) && c < |st.cells| && st.cells[c].kind.Derived? && ReadableBelow(st, c)
    ensures Valid(r.0) && Extends(st, r.0) && SameCalls(st, r.0) && Grows(st, r.0)
    ensures CellsFromUnchanged(st, r.0, c + 1)
    ensures r.0.cells[c] == st.cells[c].(calculateCalls := st.cells[c].calculateCalls + 1)
    ensures st.stack == [] ==> Quiet(st, r.0)
    decreases c, 1, 0
  {
    var st0 := CountCalculate(st, c);
    NestedReadable(st, st0, c);
    var (st1, vs) := ReadDeps(st0, c, 0);
    ReadsTrans(st, st0, st1, c + 1, c);
    (st1, st.cells[c].kind.combine(vs))
  }

  /** The reads of `calculate()` from dependency `k` on, with the values read. */
  function ReadDeps<V(==)>(st: State<V>, c: SigId, k: nat): (r: (State<V>, seq<V>))
    requires Valid(st) && c < |st.cells| && st.cells[c].kind.Derived? && ReadableBelow(st, c)
    requires k <= |st.cells[c].kind.deps|
    ensures Valid(r.0) && Nested(st, r.0)
    ensures CellsFromUnchanged(st, r.0, c)
    ensures st.stack == [] ==> Quiet(st, r.0)
    ensures |r.1| == |st.cells[c].kind.deps| - k
    decreases c, 0, |st.cells[c].kind.deps| - k
  {
    var deps := st.cells[c].kind.deps;
    if k == |deps| then GrowsRefl(st); (st, [])
    else
      assert CellOk(st, c);
      var (st1, v) := Get(st, deps[k]);
      NestedReadable(st, st1, c);
      var (st2, vs) := ReadDeps(st1, c, k + 1);
      ReadsTrans(st, st1, st2, deps[k] + 1, c);
      (st2, [v] + vs)
  }

  /** A nested call keeps the stack and the cells' kinds, so `c`'s
      dependencies stay readable. */
  lemma NestedReadable<V>(st: State<V>, st1: State<V>, c: SigId)
    requires Extends(st, st1) && c < |st.cells| && ReadableBelow(st, c)
    ensures c < |st1.cells| && st1.cells[c].kind == st.cells[c].kind && ReadableBelow(st1, c)
  {
  }

  /** Two reads in a row change no more than each of them does. */
  lemma ReadsTrans<V>(st: State<V>, st1: State<V>, st2: State<V>, n1: nat, n2: nat)
    requires Nested(st, st1) && CellsFromUnchanged(st, st1, n1)
    requires Nested(st1, st2) && CellsFromUnchanged(st1, st2, n2)
    requires st.stack == [] ==> Quiet(st, st1) && Quiet(st1, st2)
    ensures Nested(st, st2) && CellsFromUnchanged(st, st2, if n1 < n2 then n2 else n1)
    ensures st.stack == [] ==> Quiet(st, st2)
  {
    ExtendsTrans(st, st1, st2);
    GrowsTrans(st, st1, st2);
    CellsFromTrans(st, st1, st2, n1, n2);
    if st.stack == [] {
      QuietTrans(st, st1, st2);
    }
  }

  /** `effect(...)` as called by the getter of derived cell `c` on its first
      subscriber (signals.ts:131-142): a new inner effect is pushed, run once
      and popped. Returns the new effect's id. */
  function CreateInner<V(==)>(st: State<V>, c: SigId): (r: (State<V>, EffId))
    requires Valid(st) && c < |st.cells| && st.cells[c].kind.Derived?
    ensures Valid(r.0) && Extends(st, r.0) && SameCalls(st, r.0) && Grows(st, r.0)
    ensures CellsFromUnchanged(st, r.0, c + 1)
    ensures r.1 == |st.effects| < |r.0.effects|
    ensures r.0.effects[r.1].body == Inner(c) && r.0.effects[r.1].calls == 1 && r.0.cells[c].value.Some?
    ensures InnerRan(st, r.0, c)
    decreases c, 4, 0
  {
    var e := |st.effects|;
    var st1 := Pushed(st, Inner(c));
    var st2 := Invoke(st1, e);
    var r := WithStack(st2, st.stack);
    CreatedDone(st, Inner(c), st1, st2, r);
    (r, e)
  }

  /** `st` with a fresh effect running `body` pushed on the effect stack. */
  function Pushed<V>(st: State<V>, body: Body<V>): (r: State<V>)
    requires Valid(st) && BodyOk(st, body)
    ensures Valid(r) && r.cells == st.cells && r.stack == st.stack + [|st.effects|]
    ensures r.effects == st.effects + [Effect(body, [], 0)]
  {
    NewEffectValid(st, body);
    st.(effects := st.effects + [Effect(body, [], 0)], stack := st.stack + [|st.effects|])
  }

  /** `st` with its effect stack replaced by `stack`. */
  function WithStack<V>(st: State<V>, stack: seq<EffId>): (r: State<V>)
    ensures r.cells == st.cells && r.effects == st.effects && r.stack == stack
  {
    st.(stack := stack)
  }

  /** Composes push, one counted run and pop of a new effect. */
  lemma CreatedDone<V>(st: State<V>, body: Body<V>, st1: State<V>, st2: State<V>, r: State<V>)
    requires Valid(st) && BodyOk(st, body) && st1 == Pushed(st, body)
    requires Valid(st2) && Invoked(st1, |st.effects|, st2)
    requires r == WithStack(st2, st.stack)
    ensures Valid(r) && Extends(st, r) && SameCalls(st, r) && Grows(st, r)
    ensures |st.effects| < |r.effects| && r.effects[|st.effects|].body == body
    ensures r.effects[|st.effects|].calls == 1
    ensures body.Inner? ==> CellsFromUnchanged(st, r, body.owner + 1) && InnerRan(st, r, body.owner)
  {
    OtherFieldsUpdated(st2, r);
    SameCellsGrows(st, st1);
    SameCellsGrows(st2, r);
    GrowsTrans(st, st1, st2);
    GrowsTrans(st, st2, r);
  }

  /** What one run of derived cell `d`'s inner effect leaves behind: `d` was
      recomputed once and enqueued, its subscribers and cleanup untouched. */
  ghost predicate InnerRan<V>(st: State<V>, r: State<V>, d: SigId)
  {
    && d < |st.cells| && d < |r.cells|
    && d in r.awaiting && r.queued && r.cells[d].value.Some?
    && r.cells[d].subscribers == st.cells[d].subscribers && r.cells[d].cleanup == st.cells[d].cleanup
    && r.cells[d].calculateCalls == st.cells[d].calculateCalls + 1
  }

  function InvokeRank<V>(st: State<V>, e: EffId): nat
    requires e < |st.effects|
  {
    match st.effects[e].body
    case User(_) => |st.cells|
    case Inner(d) => d
  }

  /** `st` with one more call of effect `e` counted. */
  function Counted<V>(st: State<V>, e: EffId): (r: State<V>)
    requires e < |st.effects|
    ensures |r.effects| == |st.effects| && r.effects[e].calls == st.effects[e].calls + 1
    ensures r.cells == st.cells && r.stack == st.stack && r.awaiting == st.awaiting
  {
    st.(effects := st.effects[e := st.effects[e].(calls := st.effects[e].calls + 1)])
  }

  /** `effect()`: one call of the callback of effect `e`, counted; either at its
      creation (then `e` is on top of the stack) or in a flush (empty stack). */
  function Invoke<V(==)>(st: State<V>, e: EffId): (r: State<V>)
    requires Valid(st) && e < |st.effects|
    requires st.stack == [] || st.stack[|st.stack| - 1] == e
    ensures Valid(r) && Invoked(st, e, r)
    decreases InvokeRank(st, e), 3, 1
  {
    var st1 := Counted(st, e);
    CountedReady(st, e, st1);
    var r := Callback(st1, e);
    InvokeDone(st, e, st1, r);
    r
  }

  /** The callback of effect `e` itself: a user script, or the inner effect of
      a derived cell. */
  function Callback<V(==)>(st: State<V>, e: EffId): (r: State<V>)
    requires Valid(st) && e < |st.effects|
    requires st.effects[e].body.User? ==> ScriptOk(st, st.effects[e].body.script) && UserOnTop(st)
    requires st.effects[e].body.Inner? ==>
               var d := st.effects[e].body.owner;
               d < |st.cells| && st.cells[d].kind.Derived? && ReadableBelow(st, d)
    ensures Valid(r) && Nested(st, r)
    ensures st.effects[e].body.Inner? ==>
              CellsFromUnchanged(st, r, st.effects[e].body.owner + 1) && InnerRan(st, r, st.effects[e].body.owner)
    ensures st.stack == [] ==> |r.effects| == |st.effects| && SameSubscriptions(st, r)
    decreases InvokeRank(st, e), 3, 0
  {
    match st.effects[e].body
    case User(script) => RunScript(st, script, 0)
    case Inner(d) => InnerBody(st, d)
  }

  /** Counting the call of `e` keeps the state valid and `e`'s callback
      runnable: a user script still refers to existing cells, an inner effect's
      owner is still readable. */
  lemma CountedReady<V>(st: State<V>, e: EffId, st1: State<V>)
    requires Valid(st) && e < |st.effects|
    requires st.stack == [] || st.stack[|st.stack| - 1] == e
    requires st1 == Counted(st, e)
    ensures Valid(st1) && SameShape(st, st1) && Grows(st, st1)
    ensures st1.cells == st.cells && st1.stack == st.stack && st1.effects[e].body == st.effects[e].body
    ensures st.effects[e].body.User? ==> ScriptOk(st1, st.effects[e].body.script) && UserOnTop(st1)
    ensures st.effects[e].body.Inner? ==>
              var d := st.effects[e].body.owner;
              d < |st1.cells| && st1.cells[d].kind.Derived? && ReadableBelow(st1, d)
  {
    var eff := st.effects[e];
    assert EffectOk(st, e);
    EffectUpdated(st, e, eff.(calls := eff.calls + 1));
    assert SameShape(st, st1);
    SameCellsGrows(st, st1);
    if eff.body.User? {
      ShapeKeepsScript(st, st1, eff.body.script);
    }
  }

  /** `Invoke` is the count followed by the callback. */
  lemma InvokeSplit<V>(st: State<V>, e: EffId, st1: State<V>)
    requires Valid(st) && e < |st.effects|
    requires st.stack == [] || st.stack[|st.stack| - 1] == e
    requires st1 == Counted(st, e)
    ensures Valid(st1) && e < |st1.effects| && st1.effects[e].body == st.effects[e].body
    ensures st.effects[e].body.User? ==> ScriptOk(st1, st.effects[e].body.script) && UserOnTop(st1)
    ensures st.effects[e].body.Inner? ==>
              var d := st.effects[e].body.owner;
              d < |st1.cells| && st1.cells[d].kind.Derived? && ReadableBelow(st1, d)
    ensures Invoke(st, e) == Callback(st1, e)
  {
    CountedReady(st, e, st1);
    InvokeIs(st, e, st1);
  }

  lemma InvokeIs<V>(st: State<V>, e: EffId, st1: State<V>)
    requires Valid(st) && e < |st.effects|
    requires st.stack == [] || st.stack[|st.stack| - 1] == e
    requires st1 == Counted(st, e)
    requires Valid(st1) && e < |st1.effects|
    requires st1.effects[e].body.User? ==> ScriptOk(st1, st1.effects[e].body.script) && UserOnTop(st1)
    requires st1.effects[e].body.Inner? ==>
               var d := st1.effects[e].body.owner;
               d < |st1.cells| && st1.cells[d].kind.Derived? && ReadableBelow(st1, d)
    ensures Invoke(st, e) == Callback(st1, e)
  {
  }

  /** The callback of a user effect is its script. */
  lemma CallbackUser<V>(st: State<V>, e: EffId, script: seq<Instr<V>>)
    requires Valid(st) && e < |st.effects| && st.effects[e].body == User(script)
    requires ScriptOk(st, script) && UserOnTop(st)
    ensures Callback(st, e) == RunScript(st, script, 0)
  {
  }

  /** The callback of an inner effect is `InnerBody`. */
  lemma CallbackInner<V>(st: State<V>, e: EffId, d: SigId)
    requires Valid(st) && e < |st.effects| && st.effects[e].body == Inner(d)
    requires d < |st.cells| && st.cells[d].kind.Derived? && ReadableBelow(st, d)
    ensures Callback(st, e) == InnerBody(st, d)
  {
  }

  /** What one call of effect `e` leaves behind: its own counter is one
      higher and no other counter moved; nothing outside the subscriptions
      changes; an inner effect touches only cells up to its owner, which it
      recomputes and enqueues; and in a flush no effect is created and no
      subscription changes. */
  ghost predicate Invoked<V>(st: State<V>, e: EffId, r: State<V>)
    requires e < |st.effects|
  {
    && Extends(st, r) && Grows(st, r)
    && (st.effects[e].body.Inner? ==>
          CellsFromUnchanged(st, r, st.effects[e].body.owner + 1) && InnerRan(st, r, st.effects[e].body.owner))
    && r.effects[e].calls == st.effects[e].calls + 1
    && (forall e' :: 0 <= e' < |st.effects| && e' != e ==> r.effects[e'].calls == st.effects[e'].calls)
    && (st.stack == [] ==> |r.effects| == |st.effects| && SameSubscriptions(st, r))
  }

  /** Composes the counting step of `Invoke` with the run of the callback. */
  lemma InvokeDone<V>(st: State<V>, e: EffId, st1: State<V>, r: State<V>)
    requires e < |st.effects|
    requires st1 == Counted(st, e)
    requires Grows(st, st1)
    requires Extends(st1, r) && SameCalls(st1, r) && Grows(st1, r)
    requires st.effects[e].body.Inner? ==>
               CellsFromUnchanged(st1, r, st.effects[e].body.owner + 1) && InnerRan(st1, r, st.effects[e].body.owner)
    requires st.stack == [] ==> |r.effects| == |st1.effects| && SameSubscriptions(st1, r)
    ensures Invoked(st, e, r)
  {
    GrowsTrans(st, st1, r);
  }

  /** The callback of derived cell `d`'s inner effect (signals.ts:132-141):
      recompute, store the value if it differs, and enqueue `d`'s subscribers
      whether or not it differed. */
  function InnerBody<V(==)>(st: State<V>, d: SigId): (r: State<V>)
    requires Valid(st) && d < |st.cells| && st.cells[d].kind.Derived? && ReadableBelow(st, d)
    ensures Valid(r) && Extends(st, r) && SameCalls(st, r) && Grows(st, r)
    ensures CellsFromUnchanged(st, r, d + 1)
    ensures st.stack == [] ==> |r.effects| == |st.effects| && SameSubscriptions(st, r)
    ensures InnerRan(st, r, d)
    decreases d, 2, 0
  {
    var (st1, v) := Calculate(st, d);
    var st2 := CacheIfChanged(st1, d, v);
    var r := Schedule(st2, d);
    InnerBodyDone(st, d, st1, v, st2, r);
    r
  }

  /** Composes the three steps of the inner effect's callback. */
  lemma InnerBodyDone<V>(st: State<V>, d: SigId, st1: State<V>, v: V, st2: State<V>, r: State<V>)
    requires d < |st.cells|
    requires Extends(st, st1) && SameCalls(st, st1) && Grows(st, st1) && CellsFromUnchanged(st, st1, d + 1)
    requires st1.cells[d] == st.cells[d].(calculateCalls := st.cells[d].calculateCalls + 1)
    requires st.stack == [] ==> Quiet(st, st1)
    requires Extends(st1, st2) && SameCalls(st1, st2) && Grows(st1, st2) && CellsFromUnchanged(st1, st2, d + 1)
    requires st2.effects == st1.effects && |st1.effects| == |st2.effects| && SameSubscriptions(st1, st2)
    requires st2.cells[d] == st1.cells[d].(value := Some(v))
    requires Extends(st2, r) && SameCalls(st2, r) && Grows(st2, r)
    requires r.cells == st2.cells && r.effects == st2.effects && d in r.awaiting && r.queued
    ensures Extends(st, r) && SameCalls(st, r) && Grows(st, r)
    ensures CellsFromUnchanged(st, r, d + 1)
    ensures st.stack == [] ==> |r.effects| == |st.effects| && SameSubscriptions(st, r)
    ensures InnerRan(st, r, d)
  {
    ExtendsTrans(st, st1, st2);
    ExtendsTrans(st, st2, r);
    GrowsTrans(st, st1, st2);
    GrowsTrans(st, st2, r);
    CellsFromTrans(st, st1, st2, d + 1, d + 1);
  }

  /** `if (currentValue !== value) currentValue = value` (signals.ts:134-136). */
  function CacheIfChanged<V(==)>(st: State<V>, d: SigId, v: V): (r: State<V>)
    requires Valid(st) && d < |st.cells|
    ensures Valid(r) && Extends(st, r) && SameCalls(st, r) && Grows(st, r)
    ensures CellsFromUnchanged(st, r, d + 1) && r.effects == st.effects
    ensures |st.effects| == |r.effects| && SameSubscriptions(st, r)
    ensures r.cells == st.cells[d := st.cells[d].(value := Some(v))]
  {
    if st.cells[d].value != Some(v) then SetCache(st, d, v) else GrowsRefl(st); st
  }

  /** A user callback from instruction `i` on. */
  function RunScript<V(==)>(st: State<V>, script: seq<Instr<V>>, i: nat): (r: State<V>)
    requires Valid(st) && ScriptOk(st, script) && i <= |script| && UserOnTop(st)
    ensures Valid(r) && Extends(st, r) && SameCalls(st, r) && Grows(st, r)
    ensures st.stack == [] ==> |r.effects| == |st.effects| && SameSubscriptions(st, r)
    decreases |st.cells|, 1, |script| - i
  {
    if i == |script| then st
    else
      var st1 := Step(st, script[i]);
      ExtendsKeepsScript(st, st1, script);
      var r := RunScript(st1, script, i + 1);
      ExtendsTrans(st, st1, r);
      GrowsTrans(st, st1, r);
      r
  }

  /** The stack is empty or a user effect is on top. */
  ghost predicate UserOnTop<V>(st: State<V>)
  {
    st.stack == [] ||
    var top := st.stack[|st.stack| - 1];
    top < |st.effects| && st.effects[top].body.User?
  }

  /** One getter or setter call of a user callback. */
  function Step<V(==)>(st: State<V>, instr: Instr<V>): (r: State<V>)
    requires Valid(st) && UserOnTop(st)
    requires match instr
             case Read(c) => c < |st.cells|
             case Write(c, _) => c < |st.cells| && st.cells[c].kind.Plain?
    ensures Valid(r) && Extends(st, r) && SameCalls(st, r) && Grows(st, r)
    ensures st.stack == [] ==> |r.effects| == |st.effects| && SameSubscriptions(st, r)
    decreases |st.cells|, 0, 0
  {
    match instr
    case Read(c) => Get(st, c).0
    case Write(c, v) => SetSignal(st, c, v)
  }

  lemma ExtendsKeepsScript<V>(st: State<V>, st': State<V>, script: seq<Instr<V>>)
    requires Extends(st, st') && ScriptOk(st, script)
    ensures ScriptOk(st', script)
  {
    forall i | 0 <= i < |script|
      ensures match script[i]
              case Read(c) => c < |st'.cells|
              case Write(c, _) => c < |st'.cells| && st'.cells[c].kind.Plain?
    {
      match script[i]
      case Read(c) =>
      case Write(c, _) => assert st'.cells[c].kind == st.cells[c].kind;
    }
  }

  // ---------------------------------------------------------------------------
  // Unsubscribing

  /** What unsubscribing may change: only subscriber sets (which only shrink),
      `cleanup` variables and cleanup counters. */
  ghost predicate UnsubFrame<V>(st: State<V>, r: State<V>)
  {
    && r.effects == st.effects && r.stack == st.stack && r.awaiting == st.awaiting
    && r.processed == st.processed && r.queued == st.queued
    && r.ticksCreated == st.ticksCreated && r.ticksResolved == st.ticksResolved
    && |r.cells| == |st.cells|
    && (forall c :: 0 <= c < |st.cells| ==>
          && r.cells[c].kind == st.cells[c].kind
          && r.cells[c].value == st.cells[c].value
          && r.cells[c].subscribeCalls == st.cells[c].subscribeCalls
          && r.cells[c].calculateCalls == st.cells[c].calculateCalls
          && (forall x :: x in r.cells[c].subscribers ==> x in st.cells[c].subscribers))
  }

  /** The `cleanup` variables after an unsubscribe: each is kept or cleared,
      a cleared one only with its subscriber set empty, and a hook cleanup
      counted exactly when it is cleared. */
  ghost predicate CleanupsCounted<V>(st: State<V>, r: State<V>)
    requires |r.cells| == |st.cells|
  {
    forall c :: 0 <= c < |st.cells| ==> CleanupCounted(st.cells[c], r.cells[c])
  }

  ghost predicate CleanupCounted<V>(a: Cell<V>, b: Cell<V>)
  {
    && (b.cleanup == a.cleanup || b.cleanup == NoCleanup)
    && b.cleanupCalls == a.cleanupCalls + (if a.cleanup == HookCleanup && b.cleanup == NoCleanup then 1 else 0)
    && (a.cleanup != NoCleanup && b.cleanup == NoCleanup ==> b.subscribers == [])
  }

  /** Every user effect other than `e` keeps its subscriptions. */
  ghost predicate KeepsUsers<V>(st: State<V>, r: State<V>, e: EffId)
    requires |r.cells| == |st.cells|
  {
    forall c, x ::
      (0 <= c < |st.cells| && x in st.cells[c].subscribers && x != e && x < |st.effects| && st.effects[x].body.User?)
      ==> x in r.cells[c].subscribers
  }

  /** Effect `i` is gone from every cell it holds a remover for. */
  ghost predicate Detached<V>(st: State<V>, r: State<V>, i: EffId)
    requires i < |st.effects|
  {
    forall x :: 0 <= x < |r.cells| && Remover(x, i) in st.effects[i].removers ==> i !in r.cells[x].subscribers
  }

  /** Every derived cell that lost its last subscriber had its inner effect
      unsubscribed (signals.ts:146-152), however deep the cascade went. */
  ghost predicate Cascaded<V>(st: State<V>, r: State<V>)
    requires |r.cells| == |st.cells|
  {
    forall o ::
      (0 <= o < |st.cells| && st.cells[o].subscribers != [] && r.cells[o].subscribers == []
       && st.cells[o].cleanup.InnerCleanup? && st.cells[o].cleanup.inner < |st.effects|)
      ==> Detached(st, r, st.cells[o].cleanup.inner)
  }

  lemma CascadedTrans<V>(a: State<V>, b: State<V>, c: State<V>)
    requires UnsubFrame(a, b) && UnsubFrame(b, c) && CleanupsCounted(a, b)
    requires Cascaded(a, b) && Cascaded(b, c)
    ensures Cascaded(a, c)
  {
    forall o | (0 <= o < |a.cells| && a.cells[o].subscribers != [] && c.cells[o].subscribers == []
                && a.cells[o].cleanup.InnerCleanup? && a.cells[o].cleanup.inner < |a.effects|)
      ensures Detached(a, c, a.cells[o].cleanup.inner)
    {
      var i := a.cells[o].cleanup.inner;
      if b.cells[o].subscribers == [] {
        forall x | 0 <= x < |c.cells| && Remover(x, i) in a.effects[i].removers
          ensures i !in c.cells[x].subscribers
        {
          if i in c.cells[x].subscribers {
            ShrinkAt(b, c, x, i);
          }
        }
      } else {
        assert CleanupCounted(a.cells[o], b.cells[o]);
      }
    }
  }

  lemma CountedTrans<V>(a: State<V>, b: State<V>, c: State<V>)
    requires UnsubFrame(a, b) && UnsubFrame(b, c) && CleanupsCounted(a, b) && CleanupsCounted(b, c)
    ensures CleanupsCounted(a, c)
  {
    forall x | 0 <= x < |a.cells| ensures CleanupCounted(a.cells[x], c.cells[x]) {
      assert CleanupCounted(a.cells[x], b.cells[x]) && CleanupCounted(b.cells[x], c.cells[x]);
      if c.cells[x].subscribers != [] {
        ShrinkAt(b, c, x, c.cells[x].subscribers[0]);
      }
    }
  }

  lemma KeepsTrans<V>(a: State<V>, b: State<V>, c: State<V>, e: EffId, e': EffId)
    requires UnsubFrame(a, b) && UnsubFrame(b, c) && KeepsUsers(a, b, e) && KeepsUsers(b, c, e')
    requires e' == e || (e' < |a.effects| && a.effects[e'].body.Inner?)
    ensures KeepsUsers(a, c, e)
  {
  }

  /** Cells from `bound` on are untouched. */
  ghost predicate CellsFromUnchanged<V>(st: State<V>, r: State<V>, bound: nat)
    requires |r.cells| == |st.cells|
  {
    forall c :: bound <= c < |st.cells| ==> r.cells[c] == st.cells[c]
  }

  /** The unsubscribe function returned by `effect` (signals.ts:103): call
      every remover in `e`'s unsubscribe set in insertion order. */
  function Unsubscribe<V>(st: State<V>, e: EffId): (r: State<V>)
    requires Valid(st) && e < |st.effects|
    ensures Valid(r) && UnsubFrame(st, r) && CellsFromUnchanged(st, r, InvokeRank(st, e))
    ensures CleanupHeldBelow(st, InvokeRank(st, e)) ==> CleanupHeldBelow(r, InvokeRank(st, e))
    ensures CleanupHeld(st) ==> CleanupHeld(r)
    ensures forall c :: 0 <= c < |st.cells| && Remover(c, e) in st.effects[e].removers ==>
      e !in r.cells[c].subscribers
    ensures CleanupsCounted(st, r) && KeepsUsers(st, r, e) && Cascaded(st, r)
    decreases InvokeRank(st, e), 1, 0
  {
    assert EffectOk(st, e);
    var rs := st.effects[e].removers;
    var r := RunRemovers(st, rs, 0, InvokeRank(st, e));
    forall c | 0 <= c < |st.cells| && Remover(c, e) in rs ensures e !in r.cells[c].subscribers {
      var j :| 0 <= j < |rs| && rs[j] == Remover(c, e);
    }
    CleanupHeldLift(st, r, InvokeRank(st, e), |st.cells|);
    assert forall j :: 0 <= j < |rs| ==> rs[j].effect == e;
    r
  }

  /** The removers `rs[i..]`, all on cells below `bound`. */
  function RunRemovers<V>(st: State<V>, rs: seq<Remover>, i: nat, bound: nat): (r: State<V>)
    requires Valid(st) && i <= |rs| && bound <= |st.cells|
    requires forall j :: 0 <= j < |rs| ==> rs[j].cell < bound
    ensures Valid(r) && RemoversRan(st, rs, i, bound, r)
    decreases bound, 0, |rs| - i
  {
    if i == |rs| then st
    else
      var st1 := Remove(st, rs[i]);
      var r := RunRemovers(st1, rs, i + 1, bound);
      RemoversStep(st, rs, i, bound, st1, r);
      r
  }

  /** What running the removers `rs[i..]` (all on cells below `bound`)
      leaves behind: no subscriber gained, nothing from `bound` on changed,
      every removed effect gone from its cell. */
  ghost predicate RemoversRan<V>(st: State<V>, rs: seq<Remover>, i: nat, bound: nat, r: State<V>)
    requires bound <= |st.cells| && forall j :: 0 <= j < |rs| ==> rs[j].cell < bound
  {
    && UnsubFrame(st, r) && CellsFromUnchanged(st, r, bound)
    && (CleanupHeldBelow(st, bound) ==> CleanupHeldBelow(r, bound))
    && (forall j :: i <= j < |rs| ==> rs[j].effect !in r.cells[rs[j].cell].subscribers)
    && CleanupsCounted(st, r) && Cascaded(st, r)
    && forall x :: (forall j :: i <= j < |rs| ==> rs[j].effect == x) ==> KeepsUsers(st, r, x)
  }

  lemma RemoversStep<V>(st: State<V>, rs: seq<Remover>, i: nat, bound: nat, st1: State<V>, r: State<V>)
    requires Valid(st) && i < |rs| && bound <= |st.cells|
    requires forall j :: 0 <= j < |rs| ==> rs[j].cell < bound
    requires Removed(st, rs[i], st1) && RemoversRan(st1, rs, i + 1, bound, r)
    ensures RemoversRan(st, rs, i, bound, r)
  {
    UnsubFrameTrans(st, st1, r);
    CountedTrans(st, st1, r);
    CascadedTrans(st, st1, r);
    forall x | forall j :: i <= j < |rs| ==> rs[j].effect == x
      ensures KeepsUsers(st, r, x)
    {
      assert rs[i].effect == x;
      KeepsTrans(st, st1, r, x, x);
    }
    CleanupHeldLift(st, st1, rs[i].cell + 1, bound);
    assert rs[i].effect !in r.cells[rs[i].cell].subscribers by {
      if rs[i].effect in r.cells[rs[i].cell].subscribers {
        ShrinkAt(st1, r, rs[i].cell, rs[i].effect);
      }
    }
  }

  lemma UnsubFrameTrans<V>(a: State<V>, b: State<V>, c: State<V>)
    requires UnsubFrame(a, b) && UnsubFrame(b, c)
    ensures UnsubFrame(a, c)
  {
    forall x, y | 0 <= x < |a.cells| && y in c.cells[x].subscribers ensures y in a.cells[x].subscribers {
      ShrinkAt(b, c, x, y);
      ShrinkAt(a, b, x, y);
    }
  }

  lemma ShrinkAt<V>(st: State<V>, r: State<V>, c: SigId, x: EffId)
    requires UnsubFrame(st, r) && c < |st.cells| && x in r.cells[c].subscribers
    ensures x in st.cells[c].subscribers
  {
  }
  /** One remover closure (signals.ts:57-63 and 146-152): delete the effect
      from the cell's subscribers; if that leaves the set empty while a
      cleanup is held, run the cleanup and then clear it. */
  function Remove<V>(st: State<V>, rm: Remover): (r: State<V>)
    requires Valid(st) && rm.cell < |st.cells|
    ensures Valid(r) && Removed(st, rm, r)
    decreases rm.cell, 2, 0
  {
    var c := rm.cell;
    var cell := st.cells[c];
    var st1 := st.(cells := st.cells[c := cell.(subscribers := Delete(cell.subscribers, rm.effect))]);
    DeleteValid(st, rm, st1);
    if cell.cleanup != NoCleanup && st1.cells[c].subscribers == [] then
      match cell.cleanup
      case HookCleanup =>
        var r := st1.(cells := st1.cells[c := st1.cells[c].(cleanupCalls := cell.cleanupCalls + 1, cleanup := NoCleanup)]);
        HookCleanupRemoved(st, rm, st1, r);
        r
      case InnerCleanup(inner) =>
        var st2 := Unsubscribe(st1, inner);
        var r := st2.(cells := st2.cells[c := st2.cells[c].(cleanup := NoCleanup)]);
        ClearCleanupValid(st2, c);
        assert Detached(st1, st2, inner);
        InnerCleanupRemoved(st, rm, st1, st2, r);
        r
    else
      NoCleanupRemoved(st, rm, st1);
      st1
  }

  /** What a remover leaves behind: only cell `rm.cell` and the cells its
      cleanup reaches (all below it) change, and none gains a subscriber;
      `rm.effect` is gone from the cell; a held cleanup fires exactly when
      the set became empty, and a hook cleanup is counted then. */
  ghost predicate Removed<V>(st: State<V>, rm: Remover, r: State<V>)
    requires rm.cell < |st.cells|
  {
    && UnsubFrame(st, r) && CellsFromUnchanged(st, r, rm.cell + 1)
    && (CleanupHeldBelow(st, rm.cell + 1) ==> CleanupHeldBelow(r, rm.cell + 1))
    && var old_ := st.cells[rm.cell];
    && var subs := Delete(old_.subscribers, rm.effect);
    && var fires := old_.cleanup != NoCleanup && subs == [];
    && r.cells[rm.cell].subscribers == subs
    && r.cells[rm.cell].cleanup == (if fires then NoCleanup else old_.cleanup)
    && r.cells[rm.cell].cleanupCalls == old_.cleanupCalls + (if fires && old_.cleanup == HookCleanup then 1 else 0)
    && CleanupsCounted(st, r) && KeepsUsers(st, r, rm.effect) && Cascaded(st, r)
  }

  lemma DeleteValid<V>(st: State<V>, rm: Remover, st1: State<V>)
    requires Valid(st) && rm.cell < |st.cells|
    requires st1 == st.(cells := st.cells[rm.cell := st.cells[rm.cell].(subscribers := Delete(st.cells[rm.cell].subscribers, rm.effect))])
    ensures Valid(st1) && CellOk(st1, rm.cell) && UnsubFrame(st, st1) && CellsFromUnchanged(st, st1, rm.cell + 1)
    ensures CleanupsCounted(st, st1) && KeepsUsers(st, st1, rm.effect)
    ensures st1.cells[rm.cell].cleanup.InnerCleanup? ==> InvokeRank(st1, st1.cells[rm.cell].cleanup.inner) == rm.cell
  {
    assert CellOk(st, rm.cell);
    CellUpdated(st, rm.cell, st1.cells[rm.cell]);
  }

  lemma NoCleanupRemoved<V>(st: State<V>, rm: Remover, st1: State<V>)
    requires Valid(st) && rm.cell < |st.cells|
    requires st1 == st.(cells := st.cells[rm.cell := st.cells[rm.cell].(subscribers := Delete(st.cells[rm.cell].subscribers, rm.effect))])
    requires !(st.cells[rm.cell].cleanup != NoCleanup && st1.cells[rm.cell].subscribers == [])
    ensures Removed(st, rm, st1)
  {
    DeleteValid(st, rm, st1);
  }

  lemma HookCleanupRemoved<V>(st: State<V>, rm: Remover, st1: State<V>, r: State<V>)
    requires Valid(st) && rm.cell < |st.cells|
    requires st1 == st.(cells := st.cells[rm.cell := st.cells[rm.cell].(subscribers := Delete(st.cells[rm.cell].subscribers, rm.effect))])
    requires st.cells[rm.cell].cleanup == HookCleanup && st1.cells[rm.cell].subscribers == []
    requires r == st1.(cells := st1.cells[rm.cell := st1.cells[rm.cell].(cleanupCalls := st.cells[rm.cell].cleanupCalls + 1, cleanup := NoCleanup)])
    ensures Valid(r) && Removed(st, rm, r)
  {
    DeleteValid(st, rm, st1);
    CellUpdated(st1, rm.cell, r.cells[rm.cell]);
  }

  lemma InnerCleanupRemoved<V>(st: State<V>, rm: Remover, st1: State<V>, st2: State<V>, r: State<V>)
    requires rm.cell < |st.cells|
    requires st1 == st.(cells := st.cells[rm.cell := st.cells[rm.cell].(subscribers := Delete(st.cells[rm.cell].subscribers, rm.effect))])
    requires st.cells[rm.cell].cleanup.InnerCleanup? && st1.cells[rm.cell].subscribers == []
    requires UnsubFrame(st1, st2) && CellsFromUnchanged(st1, st2, rm.cell)
    requires CleanupHeldBelow(st1, rm.cell) ==> CleanupHeldBelow(st2, rm.cell)
    requires CleanupsCounted(st1, st2) && KeepsUsers(st1, st2, st.cells[rm.cell].cleanup.inner)
    requires st.cells[rm.cell].cleanup.inner < |st.effects| && st.effects[st.cells[rm.cell].cleanup.inner].body.Inner?
    requires Cascaded(st1, st2) && Detached(st1, st2, st.cells[rm.cell].cleanup.inner)
    requires r == st2.(cells := st2.cells[rm.cell := st2.cells[rm.cell].(cleanup := NoCleanup)])
    ensures Removed(st, rm, r)
  {
    InnerCascaded(st, rm, st1, st2, r);
    var c := rm.cell;
    assert UnsubFrame(st, st1);
    assert UnsubFrame(st2, r);
    UnsubFrameTrans(st, st1, st2);
    UnsubFrameTrans(st, st2, r);
    InnerCleanupCounted(st, rm, st1, st2, r);
    assert st2.cells[c] == st1.cells[c];
    assert CellsFromUnchanged(st, r, c + 1) by {
      forall c' | c < c' < |st.cells| ensures r.cells[c'] == st.cells[c'] {
        assert r.cells[c'] == st2.cells[c'] == st1.cells[c'];
      }
    }
    if CleanupHeldBelow(st, c + 1) {
      assert CleanupHeldBelow(st1, c) by {
        forall c' | 0 <= c' < c ensures st1.cells[c'] == st.cells[c'] { }
      }
      forall c' | 0 <= c' < c ensures r.cells[c'] == st2.cells[c'] { }
    }
  }

  /** The cleanup accounting and the kept user subscriptions across the
      three steps of a remover whose cleanup is an inner effect. */
  lemma InnerCleanupCounted<V>(st: State<V>, rm: Remover, st1: State<V>, st2: State<V>, r: State<V>)
    requires rm.cell < |st.cells|
    requires st1 == st.(cells := st.cells[rm.cell := st.cells[rm.cell].(subscribers := Delete(st.cells[rm.cell].subscribers, rm.effect))])
    requires st.cells[rm.cell].cleanup.InnerCleanup? && st1.cells[rm.cell].subscribers == []
    requires UnsubFrame(st1, st2) && CellsFromUnchanged(st1, st2, rm.cell)
    requires CleanupsCounted(st1, st2) && KeepsUsers(st1, st2, st.cells[rm.cell].cleanup.inner)
    requires st.cells[rm.cell].cleanup.inner < |st.effects| && st.effects[st.cells[rm.cell].cleanup.inner].body.Inner?
    requires r == st2.(cells := st2.cells[rm.cell := st2.cells[rm.cell].(cleanup := NoCleanup)])
    ensures CleanupsCounted(st, r) && KeepsUsers(st, r, rm.effect)
  {
    assert UnsubFrame(st, st1) && UnsubFrame(st2, r);
    assert CleanupsCounted(st, st1) && KeepsUsers(st, st1, rm.effect);
    assert CleanupsCounted(st2, r) && KeepsUsers(st2, r, rm.effect) by {
      assert st2.cells[rm.cell] == st1.cells[rm.cell];
    }
    CountedTrans(st, st1, st2);
    CountedTrans(st, st2, r);
    UnsubFrameTrans(st, st1, st2);
    KeepsTrans(st, st1, st2, rm.effect, st.cells[rm.cell].cleanup.inner);
    KeepsTrans(st, st2, r, rm.effect, rm.effect);
  }

  /** The cascade across a remover whose cleanup is an inner effect: the
      inner effect itself is detached, and the cascade it ran is kept. */
  lemma InnerCascaded<V>(st: State<V>, rm: Remover, st1: State<V>, st2: State<V>, r: State<V>)
    requires rm.cell < |st.cells|
    requires st1 == st.(cells := st.cells[rm.cell := st.cells[rm.cell].(subscribers := Delete(st.cells[rm.cell].subscribers, rm.effect))])
    requires st.cells[rm.cell].cleanup.InnerCleanup? && st.cells[rm.cell].cleanup.inner < |st.effects|
    requires UnsubFrame(st1, st2) && Cascaded(st1, st2) && Detached(st1, st2, st.cells[rm.cell].cleanup.inner)
    requires r == st2.(cells := st2.cells[rm.cell := st2.cells[rm.cell].(cleanup := NoCleanup)])
    ensures Cascaded(st, r)
  {
    forall o | (0 <= o < |st.cells| && st.cells[o].subscribers != [] && r.cells[o].subscribers == []
                && st.cells[o].cleanup.InnerCleanup? && st.cells[o].cleanup.inner < |st.effects|)
      ensures Detached(st, r, st.cells[o].cleanup.inner)
    {
      var i := st.cells[o].cleanup.inner;
      if o != rm.cell {
        assert st1.cells[o] == st.cells[o];
        assert Detached(st1, st2, i);
      }
      forall x | 0 <= x < |r.cells| && Remover(x, i) in st.effects[i].removers
        ensures i !in r.cells[x].subscribers
      {
        assert r.cells[x].subscribers == st2.cells[x].subscribers;
      }
    }
  }

  /** Dropping a cell's cleanup keeps the state well-formed. */
  lemma ClearCleanupValid<V>(st: State<V>, c: SigId)
    requires Valid(st) && c < |st.cells|
    ensures Valid(st.(cells := st.cells[c := st.cells[c].(cleanup := NoCleanup)]))
  {
    assert CellOk(st, c);
    CellUpdated(st, c, st.cells[c].(cleanup := NoCleanup));
  }
  // ---------------------------------------------------------------------------
  // The flush
  /** `notify()` (signals.ts:9-22), the microtask queued by the first write of
      a tick: run the effects of every awaiting set, then clear the scheduler
      and resolve the tick. */
  function Notify<V(==)>(st: State<V>): (r: State<V>)
    requires Valid(st) && st.stack == [] && st.queued && st.processed == {}
    ensures Valid(r) && Flushed(st, r)
  {
    var st1 := NotifyFrom(st, 0);
    var r := FlushCleared(st1);
    OtherFieldsUpdated(st1, r);
    FlushDone(st, st1, r);
    r
  }

  /** The end of `notify()`: the awaiting sets and the processed effects
      cleared, the microtask no longer queued, the tick resolved. */
  function FlushCleared<V>(st: State<V>): (r: State<V>)
    ensures r.cells == st.cells && r.effects == st.effects && r.stack == st.stack
    ensures r.awaiting == [] && r.processed == {} && !r.queued && r.ticksResolved == st.ticksResolved + 1
    ensures r.ticksCreated == st.ticksCreated
  {
    st.(awaiting := [], processed := {}, queued := false, ticksResolved := st.ticksResolved + 1)
  }

  /** What a flush promises: the scheduler is clear and the tick resolved;
      nothing subscribes or unsubscribes; no cell changes kind and no
      callback changes; each effect runs at most once; an effect in no
      subscriber set does not run; every subscriber of a set that was
      awaiting runs. */
  ghost predicate Flushed<V>(st: State<V>, r: State<V>)
  {
    && Grows(st, r) && |r.effects| == |st.effects| && SameSubscriptions(st, r)
    && (forall c :: 0 <= c < |st.cells| ==> r.cells[c].kind == st.cells[c].kind)
    && (forall e :: 0 <= e < |st.effects| ==> r.effects[e].body == st.effects[e].body)
    && r.awaiting == [] && r.processed == {} && !r.queued && r.stack == []
    && r.ticksResolved == st.ticksResolved + 1 && r.ticksCreated == st.ticksCreated
    && (forall e :: 0 <= e < |st.effects| ==> st.effects[e].calls <= r.effects[e].calls <= st.effects[e].calls + 1)
    && (forall e :: 0 <= e < |st.effects| && !Subscribed(st, e) ==> r.effects[e].calls == st.effects[e].calls)
    && (forall k, m ::
          0 <= k < |st.awaiting| && st.awaiting[k] < |st.cells| && 0 <= m < |st.cells[st.awaiting[k]].subscribers| ==>
          (var x := st.cells[st.awaiting[k]].subscribers[m]; x < |st.effects| && r.effects[x].calls == st.effects[x].calls + 1))
  }

  lemma FlushDone<V>(st: State<V>, st1: State<V>, r: State<V>)
    requires Valid(st) && st.processed == {} && FlushedFrom(st, 0, st1)
    requires r == FlushCleared(st1)
    ensures Flushed(st, r)
  {
    forall k, m | 0 <= k < |st.awaiting| && st.awaiting[k] < |st.cells| && 0 <= m < |st.cells[st.awaiting[k]].subscribers|
      ensures var x := st.cells[st.awaiting[k]].subscribers[m]; x < |st.effects| && r.effects[x].calls == st.effects[x].calls + 1
    {
      assert st.awaiting[k] == st1.awaiting[k];
      assert st.cells[st.awaiting[k]].subscribers == st1.cells[st1.awaiting[k]].subscribers;
      assert CellOk(st, st.awaiting[k]);
      assert st.cells[st.awaiting[k]].subscribers[m] in st.cells[st.awaiting[k]].subscribers;
    }
    SameCellsGrows(st1, r);
    GrowsTrans(st, st1, r);
  }

  /** Effect `e` is in some subscriber set. */
  ghost predicate Subscribed<V>(st: State<V>, e: EffId)
  {
    exists c :: 0 <= c < |st.cells| && e in st.cells[c].subscribers
  }

  /** Every subscriber of every awaiting set from position `i` on has been
      processed. */
  ghost predicate VisitedFrom<V>(r: State<V>, i: nat)
  {
    forall k, m :: i <= k < |r.awaiting| && r.awaiting[k] < |r.cells| && 0 <= m < |r.cells[r.awaiting[k]].subscribers|
      ==> r.cells[r.awaiting[k]].subscribers[m] in r.processed
  }

  /** The outer loop from awaiting set `i` on. `awaiting` can grow while it
      runs, and the loop visits what is added (a JavaScript `Set` iterator
      sees members added during the iteration). */
  function NotifyFrom<V(==)>(st: State<V>, i: nat): (r: State<V>)
    requires Valid(st) && st.stack == [] && st.queued && i <= |st.awaiting|
    ensures Valid(r) && FlushedFrom(st, i, r)
    decreases |st.cells| - i
  {
    if i == |st.awaiting| then GrowsRefl(st); st
    else
      BoundedLength(st.awaiting, |st.cells|);
      var c := st.awaiting[i];
      assert c in st.awaiting;
      assert CellOk(st, c);
      var st1 := NotifySet(st, st.cells[c].subscribers, 0);
      var r := NotifyFrom(st1, i + 1);
      FlushedFromStep(st, i, st1, r);
      r
  }

  /** What the outer loop from awaiting set `i` on leaves behind: nothing
      subscribes or unsubscribes; the effects processed on the way ran once
      more, all of them subscribers; every subscriber of the awaiting sets
      from `i` on is processed. */
  ghost predicate FlushedFrom<V>(st: State<V>, i: nat, r: State<V>)
  {
    && Grows(st, r) && |r.effects| == |st.effects| && SameSubscriptions(st, r)
    && (forall c :: 0 <= c < |st.cells| ==> r.cells[c].kind == st.cells[c].kind)
    && (forall e :: 0 <= e < |st.effects| ==> r.effects[e].body == st.effects[e].body)
    && r.stack == [] && r.queued && r.ticksCreated == st.ticksCreated && r.ticksResolved == st.ticksResolved
    && st.awaiting <= r.awaiting && st.processed <= r.processed
    && (forall e :: 0 <= e < |st.effects| ==>
          r.effects[e].calls == st.effects[e].calls + (if e in r.processed && e !in st.processed then 1 else 0))
    && (forall e :: e in r.processed && e !in st.processed ==> Subscribed(st, e))
    && VisitedFrom(r, i)
  }

  lemma FlushedFromStep<V>(st: State<V>, i: nat, st1: State<V>, r: State<V>)
    requires i < |st.awaiting| && st.awaiting[i] < |st.cells|
    requires FlushedSet(st, st.cells[st.awaiting[i]].subscribers, 0, st1)
    requires FlushedFrom(st1, i + 1, r)
    ensures FlushedFrom(st, i, r)
  {
    var c := st.awaiting[i];
    GrowsTrans(st, st1, r);
    forall e | e in r.processed && e !in st.processed ensures Subscribed(st, e) {
      if e in st1.processed {
        assert e in st.cells[c].subscribers;
      } else {
        var c' :| 0 <= c' < |st1.cells| && e in st1.cells[c'].subscribers;
        assert st1.cells[c'].subscribers == st.cells[c'].subscribers;
      }
    }
    assert r.awaiting[i] == c;
    assert r.cells[c].subscribers == st.cells[c].subscribers;
  }

  function NotifySet<V(==)>(st: State<V>, subs: seq<EffId>, j: nat): (r: State<V>)
    requires Valid(st) && st.stack == [] && st.queued && j <= |subs|
    requires forall x :: x in subs ==> x < |st.effects|
    ensures Valid(r) && FlushedSet(st, subs, j, r)
    decreases |subs| - j
  {
    if j == |subs| then FlushedNothing(st, subs); st
    else if subs[j] in st.processed then
      var r := NotifySet(st, subs, j + 1);
      FlushedSkip(st, subs, j, r);
      r
    else
      assert subs[j] in subs;
      var st1 := Invoke(st, subs[j]);
      var st2 := MarkProcessed(st1, subs[j]);
      var r := NotifySet(st2, subs, j + 1);
      FlushedRun(st, subs, j, st1, st2, r);
      r
  }

  /** `st` with effect `e` added to the effects processed in this flush. */
  function MarkProcessed<V>(st: State<V>, e: EffId): (r: State<V>)
    requires Valid(st)
    ensures Valid(r) && r.processed == st.processed + {e}
    ensures r.cells == st.cells && r.effects == st.effects && r.stack == st.stack && r.awaiting == st.awaiting
    ensures r.queued == st.queued
  {
    var r := st.(processed := st.processed + {e});
    OtherFieldsUpdated(st, r);
    r
  }

  /** What the inner loop over `subs[j..]` leaves behind: nothing subscribes
      or unsubscribes, no cell or callback changes kind, the members of
      `subs[j..]` are now processed, and exactly the newly processed
      effects ran once more. */
  ghost predicate FlushedSet<V>(st: State<V>, subs: seq<EffId>, j: nat, r: State<V>)
  {
    && Grows(st, r) && |r.effects| == |st.effects| && SameSubscriptions(st, r)
    && r.stack == [] && r.queued && r.ticksCreated == st.ticksCreated
    && st.awaiting <= r.awaiting && r.ticksResolved == st.ticksResolved
    && (forall c :: 0 <= c < |st.cells| ==> r.cells[c].kind == st.cells[c].kind)
    && (forall e :: 0 <= e < |st.effects| ==> r.effects[e].body == st.effects[e].body)
    && r.processed == st.processed + (set k | j <= k < |subs| :: subs[k])
    && (forall e :: 0 <= e < |st.effects| ==>
          r.effects[e].calls == st.effects[e].calls + (if e in r.processed && e !in st.processed then 1 else 0))
  }

  lemma FlushedNothing<V>(st: State<V>, subs: seq<EffId>)
    requires st.stack == [] && st.queued
    ensures FlushedSet(st, subs, |subs|, st)
  {
    GrowsRefl(st);
  }

  lemma FlushedSkip<V>(st: State<V>, subs: seq<EffId>, j: nat, r: State<V>)
    requires j < |subs| && subs[j] in st.processed
    requires FlushedSet(st, subs, j + 1, r)
    ensures FlushedSet(st, subs, j, r)
  {
    assert (set k | j <= k < |subs| :: subs[k]) == {subs[j]} + (set k | j + 1 <= k < |subs| :: subs[k]);
  }

  lemma FlushedRun<V>(st: State<V>, subs: seq<EffId>, j: nat, st1: State<V>, st2: State<V>, r: State<V>)
    requires j < |subs| && subs[j] !in st.processed && subs[j] < |st.effects|
    requires Extends(st, st1) && Grows(st, st1) && |st1.effects| == |st.effects| && SameSubscriptions(st, st1)
    requires st1.ticksCreated == st.ticksCreated
    requires st1.effects[subs[j]].calls == st.effects[subs[j]].calls + 1
    requires forall e :: 0 <= e < |st.effects| && e != subs[j] ==> st1.effects[e].calls == st.effects[e].calls
    requires Valid(st1) && st2 == MarkProcessed(st1, subs[j])
    requires FlushedSet(st2, subs, j + 1, r)
    ensures FlushedSet(st, subs, j, r)
  {
    SameCellsGrows(st1, st2);
    GrowsTrans(st, st1, st2);
    GrowsTrans(st, st2, r);
    assert (set k | j <= k < |subs| :: subs[k]) == {subs[j]} + (set k | j + 1 <= k < |subs| :: subs[k]);
  }

  // ---------------------------------------------------------------------------
  // The public operations

  /** The engine before any call: no cells, no effects, no pending flush, and
      a resolved tick promise. */
  function Init<V>(): (r: State<V>)
    ensures Valid(r) && r.stack == [] && r.processed == {} && !r.queued
  {
    State([], [], [], [], {}, false, 0, 0)
  }

  /** `signal(initialValue, onSubscribe)`: a new plain cell; returns its id. */
  function NewSignal<V>(st: State<V>, initial: V, hook: Hook): (r: (State<V>, SigId))
    requires Valid(st)
    ensures Valid(r.0) && r.1 == |st.cells| && |r.0.cells| == |st.cells| + 1
    ensures r.0.cells[..|st.cells|] == st.cells && r.0.effects == st.effects
    ensures r.0.cells[r.1] == Cell(Plain(hook), Some(initial), [], NoCleanup, 0, 0, 0)
  {
    var cell := Cell(Plain(hook), Some(initial), [], NoCleanup, 0, 0, 0);
    NewCellValid(st, cell);
    (st.(cells := st.cells + [cell]), |st.cells|)
  }

  /** `derived(calculate)`: a new derived cell, not yet computed; returns its id.
      Its dependencies must already exist. */
  function NewDerived<V>(st: State<V>, deps: seq<SigId>, combine: seq<V> -> V): (r: (State<V>, SigId))
    requires Valid(st) && forall i :: 0 <= i < |deps| ==> deps[i] < |st.cells|
    ensures Valid(r.0) && r.1 == |st.cells| && |r.0.cells| == |st.cells| + 1
    ensures r.0.cells[..|st.cells|] == st.cells && r.0.effects == st.effects
    ensures r.0.cells[r.1] == Cell(Derived(deps, combine), None, [], NoCleanup, 0, 0, 0)
  {
    var cell := Cell(Derived(deps, combine), None, [], NoCleanup, 0, 0, 0);
    NewCellValid(st, cell);
    (st.(cells := st.cells + [cell]), |st.cells|)
  }

  /** `effect(callback)` (signals.ts:98-104): push a new effect with a fresh
      unsubscribe set, run the callback once, pop. Returns the effect's id;
      its unsubscribe function is `Unsubscribe(_, id)`. */
  function CreateEffect<V(==)>(st: State<V>, script: seq<Instr<V>>): (r: (State<V>, EffId))
    requires Valid(st) && ScriptOk(st, script)
    ensures Valid(r.0) && Extends(st, r.0) && SameCalls(st, r.0) && Grows(st, r.0)
    ensures r.1 == |st.effects| < |r.0.effects|
    ensures r.0.effects[r.1].body == User(script) && r.0.effects[r.1].calls == 1
  {
    var e := |st.effects|;
    var st1 := Pushed(st, User(script));
    var st2 := Invoke(st1, e);
    var r := WithStack(st2, st.stack);
    CreatedDone(st, User(script), st1, st2, r);
    (r, e)
  }

  /** `tick()`: the current tick promise. It is resolved when
      `ticksResolved` has reached it. */
  function Tick<V>(st: State<V>): (r: nat)
    requires Valid(st)
    ensures r == st.ticksResolved <==> !st.queued
  {
    st.ticksCreated
  }
}
