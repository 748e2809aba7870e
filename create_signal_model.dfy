/** The older engine of `create-signal.ts` as a state machine over values.

    As in `SignalsModel`, closures become indices: a signal made by
    `createSignal` is a `SigId` into `cells`, an effect callback passed to
    `createEffect` is an `EffId` into `effects`, and a remover that `get` binds
    to the current effect is recorded by the cell it deletes from. This engine
    has no derived cells, no hooks and no tick promise; its tracking context is
    the single slot `effectCallback` / `effectUnsubscribeSet`, and its flush
    runs every member of every awaiting set with no deduplication. */
module CreateSignalModel {
  import opened OrderedSet

  type SigId = nat
  type EffId = nat

  /** `effectCallback` together with `effectUnsubscribeSet`: both undefined,
      or the effect being created (whose unsubscribe set is its `removers`). */
  datatype Slot = Empty | Tracking(effect: EffId)

  /** One step of an effect callback: a getter call or a setter call. */
  datatype Instr<V> = Read(cell: SigId) | Write(cell: SigId, value: V)

  /** The closure state of one `createSignal` call: `currentValue` and
      `subscribers`. */
  datatype Cell<V> = Cell(value: V, subscribers: seq<EffId>)

  /** An effect: its callback, the cells its unsubscribe set deletes it from
      (one entry per tracked `get`, since each binds a fresh closure), and how
      often the callback has run. */
  datatype Effect<V> = Effect(script: seq<Instr<V>>, removers: seq<SigId>, calls: nat)

  /** The whole module. `scheduled` counts the calls to `queueMicrotask` and
      `flushes` the completed runs of `notifySubscribers`. */
  datatype State<V> = State(
    cells: seq<Cell<V>>,
    effects: seq<Effect<V>>,
    slot: Slot,
    awaiting: seq<SigId>,
    queued: bool,
    scheduled: nat,
    flushes: nat)

  // ---------------------------------------------------------------------------
  // Well-formedness

  ghost predicate ScriptOk<V>(n: nat, script: seq<Instr<V>>)
  {
    forall i :: 0 <= i < |script| ==> script[i].cell < n
  }

  ghost predicate CellOk<V>(st: State<V>, c: SigId)
    requires c < |st.cells|
  {
    && NoDups(st.cells[c].subscribers)
    && forall x :: x in st.cells[c].subscribers ==> x < |st.effects|
  }

  ghost predicate EffectOk<V>(st: State<V>, e: EffId)
    requires e < |st.effects|
  {
    && ScriptOk(|st.cells|, st.effects[e].script)
    && forall c :: c in st.effects[e].removers ==> c < |st.cells|
  }

  /** Every id in range, every set without repeats, and at most one pending
      `notifySubscribers`: the microtasks queued so far are the flushes done
      plus the pending one. */
  ghost predicate Valid<V>(st: State<V>)
  {
    && (forall c :: 0 <= c < |st.cells| ==> CellOk(st, c))
    && (forall e :: 0 <= e < |st.effects| ==> EffectOk(st, e))
    && (st.slot.Tracking? ==> st.slot.effect < |st.effects|)
    && NoDups(st.awaiting)
    && (forall c :: c in st.awaiting ==> c < |st.cells|)
    && st.scheduled == st.flushes + (if st.queued then 1 else 0)
  }

  /** Every subscription can be undone by the unsubscribe set of its effect. */
  ghost predicate Linked<V>(st: State<V>)
  {
    forall c, i :: 0 <= c < |st.cells| && 0 <= i < |st.cells[c].subscribers| ==>
      HasRemover(st, c, st.cells[c].subscribers[i])
  }

  /** `Linked` for one subscriber, named by membership. */
  lemma LinkedAt<V>(st: State<V>, c: SigId, x: EffId)
    requires Linked(st) && c < |st.cells| && x in st.cells[c].subscribers
    ensures HasRemover(st, c, x)
  {
    var i :| 0 <= i < |st.cells[c].subscribers| && st.cells[c].subscribers[i] == x;
  }

  /** Effect `x` exists and its unsubscribe set deletes it from cell `c`. */
  ghost predicate HasRemover<V>(st: State<V>, c: SigId, x: EffId)
  {
    x < |st.effects| && c in st.effects[x].removers
  }

  /** The cells that the getter calls of `script` read, in order. */
  function ReadCells<V>(script: seq<Instr<V>>): (r: seq<SigId>)
    ensures forall c :: c in r <==> exists i :: 0 <= i < |script| && script[i] == Read(c)
    ensures |r| <= |script|
  {
    if script == [] then []
    else
      var rest := ReadCells(script[1..]);
      assert forall i :: 1 <= i < |script| ==> script[i] == script[1..][i - 1];
      if script[0].Read? then [script[0].cell] + rest else rest
  }

  // ---------------------------------------------------------------------------
  // How a state may change

  /** What any getter or setter call keeps: the cells and effects made so far,
      the callbacks and their call counts, and the slot; `awaitingNotify`
      only gains sets at its end, and a pending flush stays pending. */
  ghost predicate Grows<V>(st: State<V>, r: State<V>)
  {
    && |r.cells| == |st.cells| && |r.effects| == |st.effects|
    && (forall e :: 0 <= e < |st.effects| ==> r.effects[e].script == st.effects[e].script)
    && r.slot == st.slot && r.flushes == st.flushes
    && |st.awaiting| <= |r.awaiting| && r.awaiting[..|st.awaiting|] == st.awaiting
    && (st.queued ==> r.queued && r.scheduled == st.scheduled)
  }

  /** No callback ran. */
  ghost predicate SameCalls<V>(st: State<V>, r: State<V>)
  {
    && |r.effects| == |st.effects|
    && forall e :: 0 <= e < |st.effects| ==> r.effects[e].calls == st.effects[e].calls
  }

  /** No subscription made or undone. */
  ghost predicate SameLinks<V>(st: State<V>, r: State<V>)
  {
    && |r.cells| == |st.cells| && |r.effects| == |st.effects|
    && (forall c :: 0 <= c < |st.cells| ==> r.cells[c].subscribers == st.cells[c].subscribers)
    && (forall e :: 0 <= e < |st.effects| ==> r.effects[e].removers == st.effects[e].removers)
  }

  /** A run of callback code that read the cells `read`, in order, with
      `st.slot` tracking: the effect in the slot joined exactly the sets of
      those cells and gained one remover per read; nothing else subscribed or
      unsubscribed. */
  ghost predicate Tracked<V>(st: State<V>, read: seq<SigId>, r: State<V>)
  {
    && |r.cells| == |st.cells| && |r.effects| == |st.effects|
    && (forall c, x :: 0 <= c < |st.cells| ==>
          (x in r.cells[c].subscribers <==>
             x in st.cells[c].subscribers || (st.slot == Tracking(x) && c in read)))
    && (forall e :: 0 <= e < |st.effects| ==>
          r.effects[e].removers ==
            st.effects[e].removers + (if st.slot == Tracking(e) then read else []))
    && (st.slot == Empty ==>
          forall c :: 0 <= c < |st.cells| ==> r.cells[c].subscribers == st.cells[c].subscribers)
  }

  lemma GrowsRefl<V>(st: State<V>)
    ensures Grows(st, st)
  {
    assert st.awaiting[..|st.awaiting|] == st.awaiting;
  }

  lemma GrowsTrans<V>(st: State<V>, st1: State<V>, st2: State<V>)
    requires Grows(st, st1) && Grows(st1, st2)
    ensures Grows(st, st2)
  {
    assert st2.awaiting[..|st.awaiting|] == st1.awaiting[..|st1.awaiting|][..|st.awaiting|];
  }

  // ---------------------------------------------------------------------------
  // Single updates

  /** The tracking branch of `get` (create-signal.ts:69-76): the effect in the
      slot joins the subscribers of `c`, and a remover for `c` joins its
      unsubscribe set. */
  function Track<V>(st: State<V>, c: SigId, e: EffId): (r: State<V>)
    requires Valid(st) && c < |st.cells| && e < |st.effects|
    ensures Valid(r) && Grows(st, r) && SameCalls(st, r) && r.awaiting == st.awaiting
    ensures r.cells[c] == st.cells[c].(subscribers := Add(st.cells[c].subscribers, e))
    ensures forall c' :: 0 <= c' < |st.cells| && c' != c ==> r.cells[c'] == st.cells[c']
    ensures r.effects[e] == st.effects[e].(removers := st.effects[e].removers + [c])
    ensures forall e' :: 0 <= e' < |st.effects| && e' != e ==> r.effects[e'] == st.effects[e']
  {
    var cell := st.cells[c].(subscribers := Add(st.cells[c].subscribers, e));
    var eff := st.effects[e].(removers := st.effects[e].removers + [c]);
    var r := st.(cells := st.cells[c := cell], effects := st.effects[e := eff]);
    assert CellOk(st, c) && EffectOk(st, e);
    assert forall c' :: 0 <= c' < |r.cells| ==> CellOk(r, c') by {
      forall c' | 0 <= c' < |r.cells| ensures CellOk(r, c') {
        assert CellOk(st, c');
      }
    }
    assert forall e' :: 0 <= e' < |r.effects| ==> EffectOk(r, e') by {
      forall e' | 0 <= e' < |r.effects| ensures EffectOk(r, e') {
        assert EffectOk(st, e');
      }
    }
    GrowsRefl(st);
    r
  }

  /** `effect()` counts the call of effect `e` before its callback runs. */
  function Counted<V>(st: State<V>, e: EffId): (r: State<V>)
    requires Valid(st) && e < |st.effects|
    ensures Valid(r) && SameLinks(st, r) && r.cells == st.cells
    ensures r.effects[e].calls == st.effects[e].calls + 1 && r.effects[e].script == st.effects[e].script
    ensures forall e' :: 0 <= e' < |st.effects| && e' != e ==> r.effects[e'] == st.effects[e']
    ensures r.slot == st.slot && r.awaiting == st.awaiting && r.queued == st.queued
    ensures r.scheduled == st.scheduled && r.flushes == st.flushes
  {
    var r := st.(effects := st.effects[e := st.effects[e].(calls := st.effects[e].calls + 1)]);
    assert forall e' :: 0 <= e' < |r.effects| ==> EffectOk(r, e') by {
      forall e' | 0 <= e' < |r.effects| ensures EffectOk(r, e') {
        assert EffectOk(st, e');
      }
    }
    assert forall c :: 0 <= c < |r.cells| ==> CellOk(r, c) by {
      forall c | 0 <= c < |r.cells| ensures CellOk(r, c) {
        assert CellOk(st, c);
      }
    }
    r
  }

  // ---------------------------------------------------------------------------
  // The public operations and the callbacks

  /** The module as loaded: no signals, no effects, an empty slot, nothing
      awaiting and no microtask queued. */
  function Init<V>(): (r: State<V>)
    ensures Valid(r) && Linked(r) && r.slot == Empty && r.awaiting == [] && !r.queued
  {
    State([], [], Empty, [], false, 0, 0)
  }

  /** `createSignal(initialValue)` (create-signal.ts:64-66): a new cell holding
      `initial` with no subscribers. Returns its id. */
  function NewSignal<V>(st: State<V>, initial: V): (r: (State<V>, SigId))
    requires Valid(st)
    ensures Valid(r.0) && r.1 == |st.cells|
    ensures r.0 == st.(cells := st.cells + [Cell(initial, [])])
  {
    var r := st.(cells := st.cells + [Cell(initial, [])]);
    assert forall c :: 0 <= c < |r.cells| ==> CellOk(r, c) by {
      forall c | 0 <= c < |r.cells| ensures CellOk(r, c) {
        if c < |st.cells| {
          assert CellOk(st, c);
        }
      }
    }
    assert forall e :: 0 <= e < |r.effects| ==> EffectOk(r, e) by {
      forall e | 0 <= e < |r.effects| ensures EffectOk(r, e) {
        assert EffectOk(st, e);
      }
    }
    (r, |st.cells|)
  }

  /** `get()` (create-signal.ts:68-78): returns `currentValue`; with an effect
      in the slot, that effect also subscribes and records its remover. */
  function Get<V>(st: State<V>, c: SigId): (r: (State<V>, V))
    requires Valid(st) && c < |st.cells|
    ensures Valid(r.0) && Grows(st, r.0) && SameCalls(st, r.0) && r.1 == st.cells[c].value
    ensures st.slot == Empty ==> r.0 == st
    ensures st.slot.Tracking? ==> r.0 == Track(st, c, st.slot.effect)
  {
    if st.slot.Tracking? then (Track(st, c, st.slot.effect), st.cells[c].value)
    else GrowsRefl(st); (st, st.cells[c].value)
  }

  /** `set(newValue)` (create-signal.ts:80-87): overwrite the value, add the
      cell's subscriber set to `awaitingNotify`, and queue `notifySubscribers`
      unless a run is already pending. */
  function Set<V>(st: State<V>, c: SigId, v: V): (r: State<V>)
    requires Valid(st) && c < |st.cells|
    ensures Valid(r) && Grows(st, r) && SameLinks(st, r)
    ensures r.cells[c] == Cell(v, st.cells[c].subscribers)
    ensures forall c' :: 0 <= c' < |st.cells| && c' != c ==> r.cells[c'] == st.cells[c']
    ensures r.effects == st.effects
    ensures r.awaiting == Add(st.awaiting, c) && r.queued
    ensures r.scheduled == st.scheduled + (if st.queued then 0 else 1)
  {
    var st1 := st.(cells := st.cells[c := Cell(v, st.cells[c].subscribers)], awaiting := Add(st.awaiting, c));
    var r := if st.queued then st1 else st1.(queued := true, scheduled := st.scheduled + 1);
    assert forall c' :: 0 <= c' < |r.cells| ==> CellOk(r, c') by {
      forall c' | 0 <= c' < |r.cells| ensures CellOk(r, c') {
        assert CellOk(st, c');
      }
    }
    assert forall e :: 0 <= e < |r.effects| ==> EffectOk(r, e) by {
      forall e | 0 <= e < |r.effects| ensures EffectOk(r, e) {
        assert EffectOk(st, e);
      }
    }
    assert r.awaiting[..|st.awaiting|] == st.awaiting;
    r
  }

  /** One getter or setter call of a callback. */
  function Step<V>(st: State<V>, instr: Instr<V>): (r: State<V>)
    requires Valid(st) && instr.cell < |st.cells|
    ensures Valid(r) && Grows(st, r) && SameCalls(st, r) && Tracked(st, Reads(instr), r)
  {
    match instr
    case Read(c) => Get(st, c).0
    case Write(c, v) => Set(st, c, v)
  }

  /** The cell one instruction reads, if any. */
  function Reads<V>(instr: Instr<V>): (r: seq<SigId>)
    ensures r == ReadCells([instr])
  {
    assert [instr][1..] == [];
    if instr.Read? then [instr.cell] else []
  }

  lemma ReadCellsFrom<V>(script: seq<Instr<V>>, i: nat)
    requires i < |script|
    ensures ReadCells(script[i..]) == Reads(script[i]) + ReadCells(script[i + 1..])
  {
    assert script[i..][1..] == script[i + 1..];
  }

  /** A callback from instruction `i` on: its getter and setter calls in
      order. It subscribes the effect in the slot to exactly the cells it
      reads and runs no other callback. */
  function RunScript<V>(st: State<V>, script: seq<Instr<V>>, i: nat): (r: State<V>)
    requires Valid(st) && ScriptOk(|st.cells|, script) && i <= |script|
    ensures Valid(r) && Grows(st, r) && SameCalls(st, r) && Tracked(st, ReadCells(script[i..]), r)
    decreases |script| - i
  {
    if i == |script| then
      GrowsRefl(st);
      assert ReadCells(script[i..]) == [];
      st
    else
      var st1 := Step(st, script[i]);
      var r := RunScript(st1, script, i + 1);
      GrowsTrans(st, st1, r);
      ReadCellsFrom(script, i);
      TrackedTrans(st, Reads(script[i]), st1, ReadCells(script[i + 1..]), r);
      r
  }

  /** Two tracked runs under the same slot are one tracked run. */
  lemma TrackedTrans<V>(st: State<V>, a: seq<SigId>, st1: State<V>, b: seq<SigId>, r: State<V>)
    requires Tracked(st, a, st1) && st1.slot == st.slot && Tracked(st1, b, r)
    ensures Tracked(st, a + b, r)
  {
    forall c, x | 0 <= c < |st.cells|
      ensures x in r.cells[c].subscribers <==> x in st.cells[c].subscribers || (st.slot == Tracking(x) && c in a + b)
    {
      assert x in r.cells[c].subscribers <==> x in st1.cells[c].subscribers || (st.slot == Tracking(x) && c in b);
      assert x in st1.cells[c].subscribers <==> x in st.cells[c].subscribers || (st.slot == Tracking(x) && c in a);
    }
    forall e | 0 <= e < |st.effects|
      ensures r.effects[e].removers == st.effects[e].removers + (if st.slot == Tracking(e) then a + b else [])
    {
      assert r.effects[e].removers == st1.effects[e].removers + (if st.slot == Tracking(e) then b else []);
      if st.slot == Tracking(e) {
        assert st.effects[e].removers + a + b == st.effects[e].removers + (a + b);
      }
    }
  }

  /** `callback()` / `effect()` as a call of effect `e`: counted, then its
      script runs with whatever the slot holds. */
  function Invoke<V>(st: State<V>, e: EffId): (r: State<V>)
    requires Valid(st) && e < |st.effects|
    ensures Valid(r) && Ran(st, e, r) && Tracked(st, ReadCells(st.effects[e].script), r)
  {
    var st1 := Counted(st, e);
    assert EffectOk(st, e);
    var r := RunScript(st1, st1.effects[e].script, 0);
    assert st1.effects[e].script[0..] == st1.effects[e].script;
    InvokeDone(st, e, st1, r);
    r
  }

  /** One counted run of effect `e`: its count went up by one and no other
      count changed; cells and effects were neither made nor lost. */
  ghost predicate Ran<V>(st: State<V>, e: EffId, r: State<V>)
    requires e < |st.effects|
  {
    && Grows(st, r)
    && r.effects[e].calls == st.effects[e].calls + 1
    && (forall e' :: 0 <= e' < |st.effects| && e' != e ==> r.effects[e'].calls == st.effects[e'].calls)
  }

  lemma InvokeDone<V>(st: State<V>, e: EffId, st1: State<V>, r: State<V>)
    requires Valid(st) && e < |st.effects| && st1 == Counted(st, e)
    requires Grows(st1, r) && SameCalls(st1, r) && Tracked(st1, ReadCells(st1.effects[e].script), r)
    ensures Ran(st, e, r) && Tracked(st, ReadCells(st.effects[e].script), r)
  {
  }

  /** `createEffect(callback)` (create-signal.ts:41-50): fill the slot with
      the new effect and a fresh unsubscribe set, run the callback once, then
      empty the slot, whatever it held before. Returns the new effect; its
      unsubscribe function is `Unsubscribe(_, id)`. */
  function CreateEffect<V>(st: State<V>, script: seq<Instr<V>>): (r: (State<V>, EffId))
    requires Valid(st) && ScriptOk(|st.cells|, script)
    ensures Valid(r.0) && r.1 == |st.effects| && |r.0.effects| == |st.effects| + 1
    ensures |r.0.cells| == |st.cells| && r.0.slot == Empty
    ensures r.0.effects[r.1] == Effect(script, ReadCells(script), 1)
    ensures forall e :: 0 <= e < |st.effects| ==> r.0.effects[e] == st.effects[e]
    ensures forall c, x :: 0 <= c < |st.cells| ==>
      (x in r.0.cells[c].subscribers <==> x in st.cells[c].subscribers || (x == r.1 && c in ReadCells(script)))
    ensures r.0.flushes == st.flushes
    ensures |st.awaiting| <= |r.0.awaiting| && r.0.awaiting[..|st.awaiting|] == st.awaiting
    ensures st.queued ==> r.0.queued && r.0.scheduled == st.scheduled
  {
    var e := |st.effects|;
    var st1 := Started(st, script);
    var st2 := Invoke(st1, e);
    var r := Emptied(st2);
    CreatedDone(st, script, st1, st2, r);
    (r, e)
  }

  /** `effectCallback = callback; effectUnsubscribeSet = new Set()` for a new
      effect with `script`. */
  function Started<V>(st: State<V>, script: seq<Instr<V>>): (r: State<V>)
    requires Valid(st) && ScriptOk(|st.cells|, script)
    ensures Valid(r) && r.cells == st.cells && r.effects == st.effects + [Effect(script, [], 0)]
    ensures r.slot == Tracking(|st.effects|) && r.awaiting == st.awaiting && r.queued == st.queued
    ensures r.scheduled == st.scheduled && r.flushes == st.flushes
  {
    var r := st.(effects := st.effects + [Effect(script, [], 0)], slot := Tracking(|st.effects|));
    assert forall c :: 0 <= c < |r.cells| ==> CellOk(r, c) by {
      forall c | 0 <= c < |r.cells| ensures CellOk(r, c) {
        assert CellOk(st, c);
      }
    }
    assert forall e :: 0 <= e < |r.effects| ==> EffectOk(r, e) by {
      forall e | 0 <= e < |r.effects| ensures EffectOk(r, e) {
        if e < |st.effects| {
          assert EffectOk(st, e);
        }
      }
    }
    r
  }

  /** `effectCallback = effectUnsubscribeSet = undefined`. */
  function Emptied<V>(st: State<V>): (r: State<V>)
    requires Valid(st)
    ensures Valid(r) && r.slot == Empty && r.cells == st.cells && r.effects == st.effects
    ensures r.awaiting == st.awaiting && r.queued == st.queued
    ensures r.scheduled == st.scheduled && r.flushes == st.flushes
  {
    var r := st.(slot := Empty);
    assert forall c :: 0 <= c < |r.cells| ==> CellOk(r, c) by {
      forall c | 0 <= c < |r.cells| ensures CellOk(r, c) {
        assert CellOk(st, c);
      }
    }
    assert forall e :: 0 <= e < |r.effects| ==> EffectOk(r, e) by {
      forall e | 0 <= e < |r.effects| ensures EffectOk(r, e) {
        assert EffectOk(st, e);
      }
    }
    r
  }

  lemma CreatedDone<V>(st: State<V>, script: seq<Instr<V>>, st1: State<V>, st2: State<V>, r: State<V>)
    requires Valid(st) && ScriptOk(|st.cells|, script) && st1 == Started(st, script)
    requires Valid(st2) && Ran(st1, |st.effects|, st2) && Tracked(st1, ReadCells(script), st2)
    requires r == Emptied(st2)
    ensures r.effects[|st.effects|] == Effect(script, ReadCells(script), 1)
    ensures forall e :: 0 <= e < |st.effects| ==> r.effects[e] == st.effects[e]
    ensures forall c, x :: 0 <= c < |st.cells| ==>
      (x in r.cells[c].subscribers <==> x in st.cells[c].subscribers || (x == |st.effects| && c in ReadCells(script)))
  {
    forall c, x | 0 <= c < |st.cells|
      ensures x in r.cells[c].subscribers <==> x in st.cells[c].subscribers || (x == |st.effects| && c in ReadCells(script))
    {
      assert st1.cells[c] == st.cells[c];
      assert x in st2.cells[c].subscribers <==>
        x in st1.cells[c].subscribers || (st1.slot == Tracking(x) && c in ReadCells(script));
    }
    forall e | 0 <= e < |st.effects| ensures r.effects[e] == st.effects[e] {
      assert st1.effects[e] == st.effects[e];
    }
  }

  // ---------------------------------------------------------------------------
  // Unsubscribing

  /** The function `createEffect` returns (create-signal.ts:45-47): every
      remover in the unsubscribe set of `e`, in insertion order, each deleting
      `e` from the subscribers of its cell. */
  function Unsubscribe<V>(st: State<V>, e: EffId): (r: State<V>)
    requires Valid(st) && e < |st.effects|
    ensures Valid(r) && Grows(st, r) && r.effects == st.effects && r.awaiting == st.awaiting
    ensures r.queued == st.queued && r.scheduled == st.scheduled
    ensures forall c :: 0 <= c < |st.cells| ==>
      r.cells[c] == if c in st.effects[e].removers
                    then st.cells[c].(subscribers := Delete(st.cells[c].subscribers, e))
                    else st.cells[c]
  {
    assert EffectOk(st, e);
    RunRemovers(st, e, 0)
  }

  /** The removers of `e` from position `k` on. */
  function RunRemovers<V>(st: State<V>, e: EffId, k: nat): (r: State<V>)
    requires Valid(st) && e < |st.effects| && k <= |st.effects[e].removers|
    requires forall c :: c in st.effects[e].removers ==> c < |st.cells|
    ensures Valid(r) && Grows(st, r) && r.effects == st.effects && r.awaiting == st.awaiting
    ensures r.queued == st.queued && r.scheduled == st.scheduled
    ensures forall c :: 0 <= c < |st.cells| ==>
      r.cells[c] == if c in st.effects[e].removers[k..]
                    then st.cells[c].(subscribers := Delete(st.cells[c].subscribers, e))
                    else st.cells[c]
    decreases |st.effects[e].removers| - k
  {
    var rs := st.effects[e].removers;
    if k == |rs| then GrowsRefl(st); st
    else
      assert rs[k] in rs;
      var st1 := Remove(st, rs[k], e);
      var r := RunRemovers(st1, e, k + 1);
      GrowsTrans(st, st1, r);
      assert rs[k..] == [rs[k]] + rs[k + 1..];
      forall c | 0 <= c < |st.cells|
        ensures r.cells[c] == if c in rs[k..]
                              then st.cells[c].(subscribers := Delete(st.cells[c].subscribers, e))
                              else st.cells[c]
      {
        DeleteTwice(st.cells[c].subscribers, e);
      }
      r
  }

  /** One remover: `subscribers.delete(e)` on cell `c` (create-signal.ts:71-75). */
  function Remove<V>(st: State<V>, c: SigId, e: EffId): (r: State<V>)
    requires Valid(st) && c < |st.cells|
    ensures Valid(r) && Grows(st, r) && r.effects == st.effects && r.awaiting == st.awaiting
    ensures r.queued == st.queued && r.scheduled == st.scheduled
    ensures r.cells[c] == st.cells[c].(subscribers := Delete(st.cells[c].subscribers, e))
    ensures forall c' :: 0 <= c' < |st.cells| && c' != c ==> r.cells[c'] == st.cells[c']
  {
    var r := st.(cells := st.cells[c := st.cells[c].(subscribers := Delete(st.cells[c].subscribers, e))]);
    assert forall c' :: 0 <= c' < |r.cells| ==> CellOk(r, c') by {
      forall c' | 0 <= c' < |r.cells| ensures CellOk(r, c') {
        assert CellOk(st, c');
      }
    }
    assert forall e' :: 0 <= e' < |r.effects| ==> EffectOk(r, e') by {
      forall e' | 0 <= e' < |r.effects| ensures EffectOk(r, e') {
        assert EffectOk(st, e');
      }
    }
    GrowsRefl(st);
    assert Grows(st, r);
    r
  }

  /** Deleting a member twice is deleting it once. */
  lemma DeleteTwice(s: seq<EffId>, x: EffId)
    ensures Delete(Delete(s, x), x) == Delete(s, x)
  {
    assert x !in Delete(s, x);
  }

  // ---------------------------------------------------------------------------
  // The flush

  /** The number of sets in `aw` from position `i` on that hold effect `e`,
      with subscribers as in `st`: the runs of `e` a flush over `aw` makes. */
  function Hits<V>(st: State<V>, aw: seq<SigId>, i: nat, e: EffId): nat
    decreases |aw| - i
  {
    if i >= |aw| then 0
    else (if aw[i] < |st.cells| && e in st.cells[aw[i]].subscribers then 1 else 0) + Hits(st, aw, i + 1, e)
  }

  /** What the loop of `notifySubscribers` over the sets from position `i` on
      leaves behind: no subscription made or undone, `awaitingNotify` grown at
      its end only, and every effect run once per visited set holding it. */
  ghost predicate FlushedFrom<V>(st: State<V>, i: nat, r: State<V>)
  {
    && Grows(st, r) && SameLinks(st, r) && r.queued
    && (forall c :: 0 <= c < |st.cells| ==> r.cells[c].subscribers == st.cells[c].subscribers)
    && (forall e :: 0 <= e < |st.effects| ==> r.effects[e].calls == st.effects[e].calls + Hits(st, r.awaiting, i, e))
  }

  /** `notifySubscribers()` (create-signal.ts:9-17), the microtask queued by
      the first write: run every member of every awaiting set, one set after
      the other and with no deduplication, then clear `awaitingNotify` and
      `microtaskQueued`. Returns the new state and the sets visited. */
  function Notify<V>(st: State<V>): (r: (State<V>, seq<SigId>))
    requires Valid(st) && st.slot == Empty && st.queued
    ensures Valid(r.0) && SameLinks(st, r.0) && r.0.slot == Empty
    ensures r.0.awaiting == [] && !r.0.queued && r.0.flushes == st.flushes + 1 && r.0.scheduled == st.scheduled
    ensures |st.awaiting| <= |r.1| && r.1[..|st.awaiting|] == st.awaiting
    ensures forall e :: 0 <= e < |st.effects| ==> r.0.effects[e].calls == st.effects[e].calls + Hits(st, r.1, 0, e)
  {
    var st1 := NotifyFrom(st, 0);
    var r := Cleared(st1);
    (r, st1.awaiting)
  }

  /** `awaitingNotify.clear(); microtaskQueued = false`: the flush is done. */
  function Cleared<V>(st: State<V>): (r: State<V>)
    requires Valid(st) && st.queued
    ensures Valid(r) && r.cells == st.cells && r.effects == st.effects && r.slot == st.slot
    ensures r.awaiting == [] && !r.queued && r.flushes == st.flushes + 1 && r.scheduled == st.scheduled
  {
    var r := st.(awaiting := [], queued := false, flushes := st.flushes + 1);
    assert forall c :: 0 <= c < |r.cells| ==> CellOk(r, c) by {
      forall c | 0 <= c < |r.cells| ensures CellOk(r, c) {
        assert CellOk(st, c);
      }
    }
    assert forall e :: 0 <= e < |r.effects| ==> EffectOk(r, e) by {
      forall e | 0 <= e < |r.effects| ensures EffectOk(r, e) {
        assert EffectOk(st, e);
      }
    }
    r
  }

  /** The outer loop from the set at position `i` on. The loop reads
      `awaitingNotify` afresh each round, so sets added by writes of the
      callbacks it runs are visited in this same flush. */
  function NotifyFrom<V>(st: State<V>, i: nat): (r: State<V>)
    requires Valid(st) && st.slot == Empty && st.queued && i <= |st.awaiting|
    ensures Valid(r) && FlushedFrom(st, i, r)
    decreases |st.cells| - i
  {
    if i == |st.awaiting| then
      FlushedNothing(st, i);
      st
    else
      BoundedLength(st.awaiting, |st.cells|);
      var c := st.awaiting[i];
      assert c in st.awaiting;
      assert CellOk(st, c);
      var st1 := NotifySet(st, st.cells[c].subscribers, 0);
      var r := NotifyFrom(st1, i + 1);
      FlushedStep(st, i, st1, r);
      r
  }

  lemma FlushedNothing<V>(st: State<V>, i: nat)
    requires i == |st.awaiting| && st.queued
    ensures FlushedFrom(st, i, st)
  {
    GrowsRefl(st);
  }

  lemma FlushedStep<V>(st: State<V>, i: nat, st1: State<V>, r: State<V>)
    requires i < |st.awaiting| && st.awaiting[i] < |st.cells|
    requires FlushedSet(st, st.cells[st.awaiting[i]].subscribers, 0, st1)
    requires FlushedFrom(st1, i + 1, r)
    ensures FlushedFrom(st, i, r)
  {
    GrowsTrans(st, st1, r);
    var c := st.awaiting[i];
    assert r.awaiting[i] == c by {
      assert r.awaiting[..|st.awaiting|] == st.awaiting;
    }
    forall e | 0 <= e < |st.effects|
      ensures r.effects[e].calls == st.effects[e].calls + Hits(st, r.awaiting, i, e)
    {
      HitsSameLinks(st1, st, r.awaiting, i + 1, e);
    }
  }

  /** `Hits` only looks at the subscriber sets. */
  lemma {:induction false} HitsSameLinks<V>(st: State<V>, st': State<V>, aw: seq<SigId>, i: nat, e: EffId)
    requires |st'.cells| == |st.cells|
    requires forall c :: 0 <= c < |st.cells| ==> st'.cells[c].subscribers == st.cells[c].subscribers
    ensures Hits(st', aw, i, e) == Hits(st, aw, i, e)
    decreases |aw| - i
  {
    if i < |aw| {
      HitsSameLinks(st, st', aw, i + 1, e);
    }
  }

  /** What the inner loop over `subs[j..]` leaves behind: each member ran
      once more, and nothing subscribed or unsubscribed. */
  ghost predicate FlushedSet<V>(st: State<V>, subs: seq<EffId>, j: nat, r: State<V>)
    requires j <= |subs|
  {
    && Grows(st, r) && SameLinks(st, r)
    && (forall e :: 0 <= e < |st.effects| ==>
          r.effects[e].calls == st.effects[e].calls + (if e in subs[j..] then 1 else 0))
  }

  /** The inner loop: `effect()` for every member of one set, in order. The
      set is the live one; no callback run here can change it, since the slot
      is empty and callbacks do not unsubscribe. */
  function NotifySet<V>(st: State<V>, subs: seq<EffId>, j: nat): (r: State<V>)
    requires Valid(st) && st.slot == Empty && st.queued && j <= |subs|
    requires NoDups(subs) && forall x :: x in subs ==> x < |st.effects|
    ensures Valid(r) && FlushedSet(st, subs, j, r) && r.queued
    decreases |subs| - j
  {
    if j == |subs| then
      GrowsRefl(st);
      st
    else
      assert subs[j] in subs;
      var st1 := Invoke(st, subs[j]);
      var r := NotifySet(st1, subs, j + 1);
      SetStep(st, subs, j, st1, r);
      r
  }

  lemma SetStep<V>(st: State<V>, subs: seq<EffId>, j: nat, st1: State<V>, r: State<V>)
    requires st.slot == Empty && j < |subs| && NoDups(subs) && subs[j] < |st.effects|
    requires Ran(st, subs[j], st1) && Tracked(st, ReadCells(st.effects[subs[j]].script), st1)
    requires FlushedSet(st1, subs, j + 1, r)
    ensures FlushedSet(st, subs, j, r)
  {
    assert Grows(st, st1);
    GrowsTrans(st, st1, r);
    assert subs[j..] == [subs[j]] + subs[j + 1..];
    assert subs[j] !in subs[j + 1..] by {
      forall k | j + 1 <= k < |subs| ensures subs[k] != subs[j] {
      }
    }
  }

  // ---------------------------------------------------------------------------
  // Loop invariants of the imperative engine, with their entry and step lemmas

  /** After `i` instructions of `script` started in `st`, the state `s` has
      the rest of the run still to do. */
  ghost predicate Running<V>(st: State<V>, script: seq<Instr<V>>, i: nat, s: State<V>)
  {
    && Valid(st) && ScriptOk(|st.cells|, script)
    && i <= |script| && Valid(s) && |s.cells| == |st.cells|
    && RunScript(s, script, i) == RunScript(st, script, 0)
  }

  lemma RunningStart<V>(st: State<V>, script: seq<Instr<V>>)
    requires Valid(st) && ScriptOk(|st.cells|, script)
    ensures Running(st, script, 0, st)
  {
  }

  lemma RunningStep<V>(st: State<V>, script: seq<Instr<V>>, i: nat, s: State<V>, s1: State<V>)
    requires Running(st, script, i, s) && i < |script| && s1 == Step(s, script[i])
    ensures Running(st, script, i + 1, s1)
  {
  }

  lemma RunningDone<V>(st: State<V>, script: seq<Instr<V>>, i: nat, s: State<V>)
    requires Running(st, script, i, s) && i == |script|
    ensures s == RunScript(st, script, 0)
  {
  }

  /** After `j` members of `subs` ran in a flush started in `st`, the state
      `s` has the rest of the set still to run. */
  ghost predicate RunningSet<V>(st: State<V>, subs: seq<EffId>, j: nat, s: State<V>)
  {
    && Valid(st) && st.slot == Empty && st.queued
    && NoDups(subs) && (forall x :: x in subs ==> x < |st.effects|)
    && j <= |subs| && Valid(s) && s.slot == Empty && s.queued
    && |s.cells| == |st.cells| && |s.effects| == |st.effects|
    && |st.awaiting| <= |s.awaiting| && s.awaiting[..|st.awaiting|] == st.awaiting
    && NotifySet(s, subs, j) == NotifySet(st, subs, 0)
  }

  lemma RunningSetStart<V>(st: State<V>, subs: seq<EffId>)
    requires Valid(st) && st.slot == Empty && st.queued
    requires NoDups(subs) && forall x :: x in subs ==> x < |st.effects|
    ensures RunningSet(st, subs, 0, st)
  {
    assert st.awaiting[..|st.awaiting|] == st.awaiting;
  }

  lemma RunningSetStep<V>(st: State<V>, subs: seq<EffId>, j: nat, s: State<V>, s1: State<V>)
    requires RunningSet(st, subs, j, s) && j < |subs| && subs[j] < |s.effects| && s1 == Invoke(s, subs[j])
    ensures RunningSet(st, subs, j + 1, s1)
  {
    assert s1.awaiting[..|st.awaiting|] == s1.awaiting[..|s.awaiting|][..|st.awaiting|];
  }

  lemma RunningSetDone<V>(st: State<V>, subs: seq<EffId>, j: nat, s: State<V>)
    requires RunningSet(st, subs, j, s) && j == |subs|
    ensures s == NotifySet(st, subs, 0)
  {
  }

  /** After the sets before position `i` were flushed from `st`, the state
      `s` has the rest of the flush still to do. */
  ghost predicate Flushing<V>(st: State<V>, s: State<V>, i: nat)
  {
    && Valid(st) && st.slot == Empty && st.queued
    && Valid(s) && s.slot == Empty && s.queued && i <= |s.awaiting| && |s.cells| == |st.cells|
    && NotifyFrom(s, i) == NotifyFrom(st, 0)
  }

  lemma FlushingStart<V>(st: State<V>)
    requires Valid(st) && st.slot == Empty && st.queued
    ensures Flushing(st, st, 0)
  {
  }

  /** One set of the flush: the state its inner loop leaves continues the
      outer loop at the next position. */
  lemma FlushingStep<V>(st: State<V>, s: State<V>, i: nat, s1: State<V>)
    requires Flushing(st, s, i) && i < |s.awaiting| && s.awaiting[i] < |s.cells|
    requires CellOk(s, s.awaiting[i])
    requires s1 == NotifySet(s, s.cells[s.awaiting[i]].subscribers, 0)
    ensures Flushing(st, s1, i + 1) && i < |st.cells|
  {
    BoundedLength(s.awaiting, |s.cells|);
    assert s1.awaiting[..|s.awaiting|] == s.awaiting;
  }

  lemma FlushingDone<V>(st: State<V>, s: State<V>, i: nat)
    requires Flushing(st, s, i) && i == |s.awaiting|
    ensures Notify(st) == (Cleared(s), s.awaiting)
  {
  }
}
