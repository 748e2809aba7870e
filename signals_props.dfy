/** Properties of the engine of `signals.ts` that relate several operations:
    reads after writes, the lifecycle of subscriptions and cleanups, what a
    flush runs, the exact cleanup accounting of unsubscribing, and the
    invariant the public operations keep. */
module SignalsProps {
  import opened OrderedSet
  import opened SignalsModel

  // ---------------------------------------------------------------------------
  // The invariant between public calls

  /** A state between two public calls: well formed, every subscription has
      its remover, every held cleanup has a subscriber, no callback running
      and no flush in progress. */
  ghost predicate Coherent<V>(st: State<V>)
  {
    Valid(st) && Linked(st) && CleanupHeld(st) && st.stack == [] && st.processed == {}
  }

  lemma InitCoherent<V>()
    ensures Coherent(Init<V>())
  {
  }

  lemma {:induction false} NewSignalCoherent<V>(st: State<V>, initial: V, hook: Hook)
    requires Coherent(st)
    ensures Coherent(NewSignal(st, initial, hook).0)
  {
    var r := NewSignal(st, initial, hook).0;
    forall c, i | 0 <= c < |r.cells| && 0 <= i < |r.cells[c].subscribers|
      ensures HasRemover(r, c, r.cells[c].subscribers[i])
    {
      assert r.cells[c] == st.cells[c];
    }
    forall c | 0 <= c < |r.cells| && r.cells[c].cleanup != NoCleanup
      ensures r.cells[c].subscribers != []
    {
      assert r.cells[c] == st.cells[c];
    }
  }

  lemma {:induction false} NewDerivedCoherent<V>(st: State<V>, deps: seq<SigId>, combine: seq<V> -> V)
    requires Coherent(st) && forall i :: 0 <= i < |deps| ==> deps[i] < |st.cells|
    ensures Coherent(NewDerived(st, deps, combine).0)
  {
    var r := NewDerived(st, deps, combine).0;
    forall c, i | 0 <= c < |r.cells| && 0 <= i < |r.cells[c].subscribers|
      ensures HasRemover(r, c, r.cells[c].subscribers[i])
    {
      assert r.cells[c] == st.cells[c];
    }
    forall c | 0 <= c < |r.cells| && r.cells[c].cleanup != NoCleanup
      ensures r.cells[c].subscribers != []
    {
      assert r.cells[c] == st.cells[c];
    }
  }

  lemma {:induction false} SetSignalCoherent<V>(st: State<V>, c: SigId, v: V)
    requires Coherent(st) && c < |st.cells| && st.cells[c].kind.Plain?
    ensures Coherent(SetSignal(st, c, v))
  {
    GrowsKeepsLinked(st, SetSignal(st, c, v));
  }

  lemma {:induction false} GetCoherent<V>(st: State<V>, c: SigId)
    requires Coherent(st) && c < |st.cells|
    ensures Coherent(Get(st, c).0)
  {
    GrowsKeepsLinked(st, Get(st, c).0);
  }

  lemma {:induction false} CreateEffectCoherent<V>(st: State<V>, script: seq<Instr<V>>)
    requires Coherent(st) && ScriptOk(st, script)
    ensures Coherent(CreateEffect(st, script).0)
  {
    GrowsKeepsLinked(st, CreateEffect(st, script).0);
  }

  lemma {:induction false} UnsubscribeCoherent<V>(st: State<V>, e: EffId)
    requires Coherent(st) && e < |st.effects|
    ensures Coherent(Unsubscribe(st, e))
  {
    var r := Unsubscribe(st, e);
    forall c, i | 0 <= c < |r.cells| && 0 <= i < |r.cells[c].subscribers|
      ensures HasRemover(r, c, r.cells[c].subscribers[i])
    {
      var x := r.cells[c].subscribers[i];
      ShrinkAt(st, r, c, x);
      var j :| 0 <= j < |st.cells[c].subscribers| && st.cells[c].subscribers[j] == x;
      assert HasRemover(st, c, st.cells[c].subscribers[j]);
    }
  }

  lemma {:induction false} NotifyCoherent<V>(st: State<V>)
    requires Coherent(st) && st.queued
    ensures Coherent(Notify(st))
  {
    var r := Notify(st);
    forall c, i | 0 <= c < |r.cells| && 0 <= i < |r.cells[c].subscribers|
      ensures HasRemover(r, c, r.cells[c].subscribers[i])
    {
      assert r.cells[c].subscribers == st.cells[c].subscribers;
      assert HasRemover(st, c, st.cells[c].subscribers[i]);
      assert r.effects[st.cells[c].subscribers[i]].removers == st.effects[st.cells[c].subscribers[i]].removers;
    }
  }

  // ---------------------------------------------------------------------------
  // Signals

  /** A read right after a write returns the value written, with no flush in
      between, whatever the effect stack. */
  lemma {:induction false} ReadAfterWrite<V>(st: State<V>, c: SigId, v: V)
    requires Valid(st) && c < |st.cells| && st.cells[c].kind.Plain? && ReadableBelow(st, c + 1)
    ensures Get(SetSignal(st, c, v), c).1 == v
  {
    var st1 := SetSignal(st, c, v);
    assert st1.stack == st.stack;
  }

  /** The cleanup returned by `onSubscribe` runs at most once per call of
      `onSubscribe`: a plain cell never has more cleanup calls than subscribe
      calls. */
  lemma {:induction false} CleanupsBounded<V>(st: State<V>, c: SigId)
    requires Valid(st) && c < |st.cells| && st.cells[c].kind.Plain?
    ensures st.cells[c].cleanupCalls <= st.cells[c].subscribeCalls
    ensures st.cells[c].cleanup == HookCleanup ==> st.cells[c].cleanupCalls < st.cells[c].subscribeCalls
  {
    assert CellOk(st, c);
  }

  // ---------------------------------------------------------------------------
  // Unsubscribing

  /** With every subscription linked to its remover, unsubscribing `e`
      leaves it in no subscriber set. */
  lemma {:induction false} UnsubscribeDetaches<V>(st: State<V>, e: EffId)
    requires Valid(st) && Linked(st) && e < |st.effects|
    ensures forall c :: 0 <= c < |st.cells| ==> e !in Unsubscribe(st, e).cells[c].subscribers
  {
  }

  /** An unsubscribed effect is not run by the next flush, even when the
      write that enqueued its cell came before the unsubscribe. */
  lemma {:induction false} UnsubscribedNotRun<V>(st: State<V>, e: EffId)
    requires Coherent(st) && st.queued && e < |st.effects|
    ensures var st1 := Unsubscribe(st, e);
      Notify(st1).effects[e].calls == st1.effects[e].calls
  {
    var st1 := Unsubscribe(st, e);
    UnsubscribeDetaches(st, e);
    assert !Subscribed(st1, e);
  }

  /** Removers that find their effect already gone change nothing while
      every held cleanup has a subscriber. */
  lemma {:induction false} RunRemoversNoop<V>(st: State<V>, rs: seq<Remover>, i: nat, bound: nat)
    requires Valid(st) && CleanupHeld(st) && i <= |rs| && bound <= |st.cells|
    requires forall j :: 0 <= j < |rs| ==> rs[j].cell < bound
    requires forall j :: i <= j < |rs| ==> rs[j].effect !in st.cells[rs[j].cell].subscribers
    ensures RunRemovers(st, rs, i, bound) == st
    decreases |rs| - i
  {
    if i < |rs| {
      var c := rs[i].cell;
      assert Delete(st.cells[c].subscribers, rs[i].effect) == st.cells[c].subscribers;
      assert st.cells[c].cleanup != NoCleanup ==> st.cells[c].subscribers != [];
      assert st.cells[c := st.cells[c]] == st.cells;
      assert Remove(st, rs[i]) == st;
      RunRemoversNoop(st, rs, i + 1, bound);
    }
  }

  /** Calling an unsubscribe function twice is the same as calling it once. */
  lemma {:induction false} UnsubscribeIdempotent<V>(st: State<V>, e: EffId)
    requires Valid(st) && CleanupHeld(st) && e < |st.effects|
    ensures Unsubscribe(Unsubscribe(st, e), e) == Unsubscribe(st, e)
  {
    var st1 := Unsubscribe(st, e);
    assert EffectOk(st, e);
    var rs := st.effects[e].removers;
    assert st1.effects == st.effects;
    assert InvokeRank(st1, e) == InvokeRank(st, e);
    forall j | 0 <= j < |rs| ensures rs[j].effect !in st1.cells[rs[j].cell].subscribers {
      assert rs[j].effect == e && Remover(rs[j].cell, e) in rs;
    }
    RunRemoversNoop(st1, rs, 0, InvokeRank(st, e));
  }

  /** While every held cleanup has a subscriber, unsubscribing an effect
      runs the hook cleanup of cell `c` exactly when `c` held one and is
      left with no subscriber. */
  lemma {:induction false} UnsubscribeHookCleanup<V>(st: State<V>, e: EffId, c: SigId)
    requires Valid(st) && CleanupHeld(st) && e < |st.effects| && c < |st.cells|
    ensures var r := Unsubscribe(st, e);
      r.cells[c].cleanupCalls == st.cells[c].cleanupCalls
        + (if st.cells[c].cleanup == HookCleanup && r.cells[c].subscribers == [] then 1 else 0)
  {
    var r := Unsubscribe(st, e);
    assert CleanupCounted(st.cells[c], r.cells[c]);
    assert st.cells[c].cleanup != NoCleanup ==> st.cells[c].subscribers != [];
    assert r.cells[c].cleanup != NoCleanup ==> r.cells[c].subscribers != [];
  }

  /** The same for one remover closure. */
  lemma {:induction false} RemoveHookCleanup<V>(st: State<V>, rm: Remover, c: SigId)
    requires Valid(st) && CleanupHeld(st) && rm.cell < |st.cells| && c < |st.cells|
    ensures var r := Remove(st, rm);
      r.cells[c].cleanupCalls == st.cells[c].cleanupCalls
        + (if st.cells[c].cleanup == HookCleanup && r.cells[c].subscribers == [] then 1 else 0)
  {
    var r := Remove(st, rm);
    CleanupHeldLift(st, r, rm.cell + 1, |st.cells|);
    assert CleanupCounted(st.cells[c], r.cells[c]);
    assert st.cells[c].cleanup != NoCleanup ==> st.cells[c].subscribers != [];
    assert r.cells[c].cleanup != NoCleanup ==> r.cells[c].subscribers != [];
  }

  /** Unsubscribing `e` takes no other user effect off any cell. */
  lemma {:induction false} UnsubscribeKeepsOthers<V>(st: State<V>, e: EffId, x: EffId, c: SigId)
    requires Valid(st) && e < |st.effects| && x < |st.effects| && c < |st.cells|
    requires x != e && st.effects[x].body.User? && x in st.cells[c].subscribers
    ensures x in Unsubscribe(st, e).cells[c].subscribers
  {
    assert KeepsUsers(st, Unsubscribe(st, e), e);
  }

  // ---------------------------------------------------------------------------
  // Derived cells losing their last subscriber

  /** When the last subscriber of a derived cell goes, its inner effect is
      unsubscribed from everything it read and the cleanup is cleared. */
  lemma {:induction false} DerivedCooling<V>(st: State<V>, c: SigId, x: EffId)
    requires Valid(st) && Linked(st) && c < |st.cells| && st.cells[c].kind.Derived?
    requires st.cells[c].subscribers == [x] && st.cells[c].cleanup.InnerCleanup?
    ensures var r := Remove(st, Remover(c, x));
      && r.cells[c].subscribers == [] && r.cells[c].cleanup == NoCleanup
      && forall c' :: 0 <= c' < |st.cells| ==> st.cells[c].cleanup.inner !in r.cells[c'].subscribers
  {
    var inner := st.cells[c].cleanup.inner;
    var cell := st.cells[c];
    assert CellOk(st, c);
    var cell1 := cell.(subscribers := Delete(cell.subscribers, x));
    CellUpdated(st, c, cell1);
    var st1 := st.(cells := st.cells[c := cell1]);
    assert Linked(st1) by {
      forall c', i | 0 <= c' < |st1.cells| && 0 <= i < |st1.cells[c'].subscribers|
        ensures HasRemover(st1, c', st1.cells[c'].subscribers[i])
      {
        assert c' != c;
        assert HasRemover(st, c', st.cells[c'].subscribers[i]);
      }
    }
    UnsubscribeDetaches(st1, inner);
    var st2 := Unsubscribe(st1, inner);
    assert Remove(st, Remover(c, x)) == st2.(cells := st2.cells[c := st2.cells[c].(cleanup := NoCleanup)]);
  }

  // ---------------------------------------------------------------------------
  // The onSubscribe hook with two effects

  /** The state in which the callback of a new effect with `script` starts:
      the effect is appended, counted once and on top of the stack. */
  ghost function Started<V>(st: State<V>, script: seq<Instr<V>>): State<V>
  {
    st.(effects := st.effects + [Effect(User(script), [], 1)], stack := st.stack + [|st.effects|])
  }

  /** Creating an effect whose callback reads one cell is that read, made in
      the started state, followed by the pop. */
  lemma {:induction false} CreateEffectReadOnce<V>(st: State<V>, c: SigId)
    requires Valid(st) && c < |st.cells|
    ensures Valid(Started(st, [Read(c)])) && ReadableBelow(Started(st, [Read(c)]), c + 1)
    ensures CreateEffect(st, [Read(c)]).0 == Get(Started(st, [Read(c)]), c).0.(stack := st.stack)
  {
    var e := |st.effects|;
    var script := [Read(c)];
    var st1 := Pushed(st, User(script));
    var st1' := Counted(st1, e);
    assert st1' == Started(st, script) by {
      assert st1'.effects == st.effects + [Effect(User(script), [], 1)];
    }
    InvokeSplit(st1, e, st1');
    CallbackUser(st1', e, script);
    RunScriptRead(st1', c);
  }

  /** A script that reads one cell is that read. */
  lemma RunScriptRead<V>(st: State<V>, c: SigId)
    requires Valid(st) && c < |st.cells| && UserOnTop(st)
    ensures ScriptOk(st, [Read(c)]) && ReadableBelow(st, c + 1)
    ensures RunScript(st, [Read(c)], 0) == Get(st, c).0
  {
    var st1 := Step(st, Read(c));
    ExtendsKeepsScript(st, st1, [Read(c)]);
    assert RunScript(st, [Read(c)], 0) == RunScript(st1, [Read(c)], 1);
  }

  /** What a tracked read of plain cell `c` does to the state `st` it is made
      in, `r` being the state afterwards. */
  ghost predicate TrackedPlainRead<V>(st: State<V>, c: SigId, r: State<V>)
    requires c < |st.cells| && st.stack != [] && st.cells[c].kind.Plain?
  {
    var top := st.stack[|st.stack| - 1];
    var subs := Add(st.cells[c].subscribers, top);
    var fires := st.cells[c].kind.hook != NoHook && |subs| == 1;
    && |r.cells| == |st.cells| && |r.effects| == |st.effects| && top < |st.effects|
    && r.stack == st.stack && r.cells[c].kind == st.cells[c].kind
    && r.cells[c].subscribers == subs
    && r.cells[c].subscribeCalls == st.cells[c].subscribeCalls + (if fires then 1 else 0)
    && r.cells[c].cleanup == (if !fires then st.cells[c].cleanup
                              else if st.cells[c].kind.hook == HookWithCleanup then HookCleanup else NoCleanup)
    && r.cells[c].cleanupCalls == st.cells[c].cleanupCalls
    && r.effects[top].removers == st.effects[top].removers + [Remover(c, top)]
    && r.effects[top].body == st.effects[top].body
    && (forall e' :: 0 <= e' < |st.effects| && e' != top ==> r.effects[e'] == st.effects[e'])
    && (forall c' :: 0 <= c' < |st.cells| && c' != c ==> r.cells[c'] == st.cells[c'])
  }

  /** What `effect(() => get())` on plain cell `c` does to `st`, `r` being
      the state afterwards: the new effect joins the subscribers, fires the
      hook if it is now the only one, and holds exactly one remover. */
  ghost predicate EffectReadOnce<V>(st: State<V>, c: SigId, r: State<V>)
    requires c < |st.cells| && st.cells[c].kind.Plain?
  {
    var e := |st.effects|;
    var fires := st.cells[c].kind.hook != NoHook && st.cells[c].subscribers == [];
    && |r.cells| == |st.cells| && e < |r.effects|
    && r.stack == st.stack && r.cells[c].kind == st.cells[c].kind
    && r.cells[c].subscribers == st.cells[c].subscribers + [e]
    && r.cells[c].subscribeCalls == st.cells[c].subscribeCalls + (if fires then 1 else 0)
    && r.cells[c].cleanup == (if !fires then st.cells[c].cleanup
                              else if st.cells[c].kind.hook == HookWithCleanup then HookCleanup else NoCleanup)
    && r.cells[c].cleanupCalls == st.cells[c].cleanupCalls
    && r.effects[e].removers == [Remover(c, e)] && r.effects[e].body == User([Read(c)])
    && (forall e' :: 0 <= e' < e ==> r.effects[e'] == st.effects[e'])
    && (forall c' :: 0 <= c' < |st.cells| && c' != c ==> r.cells[c'] == st.cells[c'])
  }

  /** A tracked read of a plain cell, in terms of the getter. */
  lemma {:induction false} PlainReadFacts<V>(st: State<V>, c: SigId)
    requires Valid(st) && c < |st.cells| && st.cells[c].kind.Plain? && st.stack != [] && ReadableBelow(st, c + 1)
    ensures TrackedPlainRead(st, c, Get(st, c).0)
  {
    assert Get(st, c) == TrackPlain(st, c);
  }

  /** The tracked read made by a new effect's callback, seen from the state
      before the effect was created. */
  lemma {:induction false} StartedRead<V>(st: State<V>, c: SigId, r: State<V>)
    requires Valid(st) && st.stack == [] && c < |st.cells| && st.cells[c].kind.Plain?
    requires TrackedPlainRead(Started(st, [Read(c)]), c, r)
    ensures EffectReadOnce(st, c, r.(stack := st.stack))
  {
    StartedShape(st, c);
  }

  /** The started state seen from `st`. */
  lemma StartedShape<V>(st: State<V>, c: SigId)
    requires Valid(st) && st.stack == [] && c < |st.cells|
    ensures var s1 := Started(st, [Read(c)]);
      && var e := |st.effects|;
      && s1.cells == st.cells && s1.stack == [e] && |s1.effects| == e + 1
      && Add(st.cells[c].subscribers, e) == st.cells[c].subscribers + [e]
      && s1.effects[e] == Effect(User([Read(c)]), [], 1)
      && forall e' :: 0 <= e' < e ==> s1.effects[e'] == st.effects[e']
  {
    var e := |st.effects|;
    assert CellOk(st, c);
    assert e !in st.cells[c].subscribers;
  }

  /** `effect(() => get())` for plain cell `c`. Nothing else changes. */
  lemma {:induction false} EffectReadingPlain<V>(st: State<V>, c: SigId)
    requires Valid(st) && st.stack == [] && c < |st.cells| && st.cells[c].kind.Plain?
    ensures CreateEffect(st, [Read(c)]).1 == |st.effects|
    ensures EffectReadOnce(st, c, CreateEffect(st, [Read(c)]).0)
  {
    CreateEffectReadOnce(st, c);
    PlainReadFacts(Started(st, [Read(c)]), c);
    StartedRead(st, c, Get(Started(st, [Read(c)]), c).0);
  }

  /** Unsubscribing a user effect that made one read runs that one remover. */
  lemma {:induction false} UnsubscribeSingle<V>(st: State<V>, e: EffId, c: SigId)
    requires Valid(st) && e < |st.effects| && c < |st.cells|
    requires st.effects[e].body.User? && st.effects[e].removers == [Remover(c, e)]
    ensures Unsubscribe(st, e) == Remove(st, Remover(c, e))
  {
    var rs := [Remover(c, e)];
    assert InvokeRank(st, e) == |st.cells|;
    var st1 := Remove(st, Remover(c, e));
    assert RunRemovers(st, rs, 0, |st.cells|) == RunRemovers(st1, rs, 1, |st.cells|);
  }

  /** The counts of the hook scenario, on the states it passes through. */
  lemma {:induction false} HookCounts<V>(st: State<V>, c: SigId, st1: State<V>, st2: State<V>)
    requires Valid(st) && c < |st.cells| && Valid(st1) && Valid(st2)
    requires st.cells[c].kind == Plain(HookWithCleanup)
    requires st.cells[c].subscribers == [] && st.cells[c].cleanup == NoCleanup
    requires EffectReadOnce(st, c, st1) && EffectReadOnce(st1, c, st2)
    ensures var s0, k0 := st.cells[c].subscribeCalls, st.cells[c].cleanupCalls;
      && var a, b := |st.effects|, |st1.effects|;
      && var st3 := Remove(st2, Remover(c, b));
      && var st4 := Remove(st3, Remover(c, a));
      && (st1.cells[c].subscribeCalls, st1.cells[c].cleanupCalls) == (s0 + 1, k0)
      && (st2.cells[c].subscribeCalls, st2.cells[c].cleanupCalls) == (s0 + 1, k0)
      && (st3.cells[c].subscribeCalls, st3.cells[c].cleanupCalls) == (s0 + 1, k0)
      && (st4.cells[c].subscribeCalls, st4.cells[c].cleanupCalls) == (s0 + 1, k0 + 1)
      && st4.cells[c].subscribers == [] && st4.cells[c].cleanup == NoCleanup
  {
    var a, b := |st.effects|, |st1.effects|;
    assert st2.cells[c].subscribers == [a, b] && st2.cells[c].cleanup == HookCleanup;
    assert Delete([a, b], b) == [a] by {
      assert a != b;
      assert Delete([b], b) == [];
    }
    assert Delete([a], a) == [];
  }

  /** The scenario of the hook test with two effects: subscribe calls and
      cleanup calls go (1, 0), (1, 0), (1, 0), (1, 1) past their starting
      counts as effect A subscribes, effect B subscribes, B unsubscribes and
      A unsubscribes. */
  lemma {:induction false} HookWithTwoEffects<V>(st: State<V>, c: SigId)
    requires Valid(st) && st.stack == [] && c < |st.cells|
    requires st.cells[c].kind == Plain(HookWithCleanup)
    requires st.cells[c].subscribers == [] && st.cells[c].cleanup == NoCleanup
    ensures var s0, k0 := st.cells[c].subscribeCalls, st.cells[c].cleanupCalls;
      && var st1 := CreateEffect(st, [Read(c)]).0;
      && var st2 := CreateEffect(st1, [Read(c)]).0;
      && var st3 := Unsubscribe(st2, |st1.effects|);
      && var st4 := Unsubscribe(st3, |st.effects|);
      && (st1.cells[c].subscribeCalls, st1.cells[c].cleanupCalls) == (s0 + 1, k0)
      && (st2.cells[c].subscribeCalls, st2.cells[c].cleanupCalls) == (s0 + 1, k0)
      && (st3.cells[c].subscribeCalls, st3.cells[c].cleanupCalls) == (s0 + 1, k0)
      && (st4.cells[c].subscribeCalls, st4.cells[c].cleanupCalls) == (s0 + 1, k0 + 1)
      && st4.cells[c].subscribers == [] && st4.cells[c].cleanup == NoCleanup
  {
    var st1 := CreateEffect(st, [Read(c)]).0;
    EffectReadingPlain(st, c);
    EffectReadingPlain(st1, c);
    var st2 := CreateEffect(st1, [Read(c)]).0;
    var a, b := |st.effects|, |st1.effects|;
    HookCounts(st, c, st1, st2);
    UnsubscribeSingle(st2, b, c);
    var st3 := Remove(st2, Remover(c, b));
    assert st3.effects == st2.effects && st2.effects[a] == st1.effects[a];
    UnsubscribeSingle(st3, a, c);
  }

  // ---------------------------------------------------------------------------
  // Ticks

  /** Two writes in a row create at most one tick promise, and exactly one
      when none was pending. */
  lemma {:induction false} TwoWritesOneTick<V>(st: State<V>, a: SigId, v: V, b: SigId, w: V)
    requires Valid(st) && a < |st.cells| && b < |st.cells| && st.cells[a].kind.Plain? && st.cells[b].kind.Plain?
    ensures var r := SetSignal(SetSignal(st, a, v), b, w);
      && r.ticksCreated == st.ticksCreated + (if st.queued then 0 else 1)
      && r.ticksResolved == st.ticksResolved
      && Tick(r) != r.ticksResolved
  {
    var st1 := SetSignal(st, a, v);
    assert st1.queued;
  }

  /** After the flush the promise that `tick()` returned is resolved. */
  lemma {:induction false} FlushResolvesTick<V>(st: State<V>)
    requires Valid(st) && st.stack == [] && st.queued && st.processed == {}
    ensures Tick(Notify(st)) == Tick(st) == Notify(st).ticksResolved
  {
  }

  /** Where a write puts the written signal's set in `awaiting`: last, when
      it is not there yet, so a flush under way still reaches it; nowhere,
      when it is already there, so a flush that has passed it does not visit
      it again and the clear at the end of the flush drops the write
      (signals.ts:69 with 10-18). */
  lemma {:induction false} WriteEnqueues<V>(st: State<V>, c: SigId, v: V)
    requires Valid(st) && c < |st.cells| && st.cells[c].kind.Plain?
    ensures c !in st.awaiting ==> SetSignal(st, c, v).awaiting == st.awaiting + [c]
    ensures c in st.awaiting ==> SetSignal(st, c, v).awaiting == st.awaiting
  {
  }
}
