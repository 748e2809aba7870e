/** The engine of `signals.ts` as the source runs it: one object whose fields
    are the module-level variables (`effectStack`, `awaiting`, `processed`,
    `microtaskQueued`, the tick promise) together with the closure state of
    every cell (`cells`) and every effect (`effects`). Each method updates the
    fields in place and is proved to compute the function of `SignalsModel`
    with the same name; what those functions promise is proved there and in
    `SignalsProps`. */
module Signals {
  import opened OrderedSet
  import opened SignalsModel

  class Engine<V(==)> {
    var cells: seq<Cell<V>>
    var effects: seq<Effect<V>>
    var effectStack: seq<EffId>
    var awaiting: seq<SigId>
    var processed: set<EffId>
    var microtaskQueued: bool
    var ticksCreated: nat
    var ticksResolved: nat

    /** The fields as one value of the model. */
    ghost function Abs(): State<V>
      reads this
    {
      State(cells, effects, effectStack, awaiting, processed, microtaskQueued, ticksCreated, ticksResolved)
    }

    /** The module as loaded: no cells, no effects, nothing queued. */
    constructor ()
      ensures Abs() == Init<V>()
    {
      cells, effects, effectStack, awaiting, processed := [], [], [], [], {};
      microtaskQueued, ticksCreated, ticksResolved := false, 0, 0;
    }

    /** `signal(initialValue, onSubscribe)` (signals.ts:46-49). */
    method NewSignal(initial: V, hook: Hook) returns (c: SigId)
      requires Valid(Abs())
      modifies this
      ensures (Abs(), c) == SignalsModel.NewSignal(old(Abs()), initial, hook)
    {
      c := |cells|;
      cells := cells + [Cell(Plain(hook), Some(initial), [], NoCleanup, 0, 0, 0)];
    }

    /** `derived(calculate)` (signals.ts:122-125). */
    method NewDerived(deps: seq<SigId>, combine: seq<V> -> V) returns (c: SigId)
      requires Valid(Abs()) && forall i :: 0 <= i < |deps| ==> deps[i] < |cells|
      modifies this
      ensures (Abs(), c) == SignalsModel.NewDerived(old(Abs()), deps, combine)
    {
      c := |cells|;
      cells := cells + [Cell(Kind.Derived(deps, combine), None, [], NoCleanup, 0, 0, 0)];
    }

    /** `tick()` (signals.ts:27-29). */
    method Tick() returns (t: nat)
      requires Valid(Abs())
      ensures t == SignalsModel.Tick(Abs())
    {
      t := ticksCreated;
    }

    // -------------------------------------------------------------------------
    // Setters

    /** The setter of a plain signal (signals.ts:67-75). */
    method SetSignal(c: SigId, v: V)
      requires Valid(Abs()) && c < |cells| && cells[c].kind.Plain?
      modifies this
      ensures Abs() == SignalsModel.SetSignal(old(Abs()), c, v)
    {
      cells := cells[c := cells[c].(value := Some(v))];
      assert Abs() == SetCache(old(Abs()), c, v);
      Schedule(c);
    }

    /** `awaiting.add(subscribers)` and the at-most-once queueing of `notify`. */
    method Schedule(c: SigId)
      requires Valid(Abs()) && c < |cells|
      modifies this
      ensures Abs() == SignalsModel.Schedule(old(Abs()), c)
    {
      awaiting := Add(awaiting, c);
      if !microtaskQueued {
        microtaskQueued := true;
        ticksCreated := ticksCreated + 1;
      }
    }

    // -------------------------------------------------------------------------
    // Getters

    /** The getter of cell `c` (signals.ts:50-66 and 126-157). */
    method Get(c: SigId) returns (v: V)
      requires Valid(Abs()) && c < |cells| && ReadableBelow(Abs(), c + 1)
      modifies this
      ensures (Abs(), v) == SignalsModel.Get(old(Abs()), c)
      decreases c, 7, 0
    {
      if cells[c].kind.Plain? {
        if effectStack == [] {
          assert CellOk(Abs(), c);
          v := cells[c].value.value;
        } else {
          v := TrackPlain(c);
        }
      } else if effectStack == [] {
        v := ColdRead(c);
      } else {
        v := TrackDerived(c);
      }
    }

    /** A plain signal read inside an effect (signals.ts:51-65). */
    method TrackPlain(c: SigId) returns (v: V)
      requires Valid(Abs()) && c < |cells| && cells[c].kind.Plain? && effectStack != []
      requires ReadableBelow(Abs(), c + 1)
      modifies this
      ensures Abs() == SignalsModel.TrackPlain(old(Abs()), c).0 && v == SignalsModel.TrackPlain(old(Abs()), c).1
    {
      ghost var st := Abs();
      assert CellOk(st, c);
      var top := effectStack[|effectStack| - 1];
      var cell := cells[c];
      var subs := Add(cell.subscribers, top);
      var cell' := if cell.kind.hook != NoHook && |subs| == 1
                   then cell.(subscribers := subs, subscribeCalls := cell.subscribeCalls + 1,
                              cleanup := if cell.kind.hook == HookWithCleanup then HookCleanup else NoCleanup)
                   else cell.(subscribers := subs);
      var eff := effects[top];
      cells := cells[c := cell'];
      effects := effects[top := eff.(removers := eff.removers + [Remover(c, top)])];
      v := cell.value.value;
      SubscribeUpdate(st, c, top);
      TrackPlainUpdate(st, c, cell', Abs());
    }

    /** A derived cell read outside any effect (signals.ts:153-156). */
    method ColdRead(c: SigId) returns (v: V)
      requires Valid(Abs()) && c < |cells| && cells[c].kind.Derived? && effectStack == []
      modifies this
      ensures (Abs(), v) == SignalsModel.ColdRead(old(Abs()), c)
      decreases c, 6, 0
    {
      v := Calculate(c);
      StoreValue(c, v);
    }

    /** A derived cell read inside an effect (signals.ts:127-152). */
    method TrackDerived(c: SigId) returns (v: V)
      requires Valid(Abs()) && c < |cells| && cells[c].kind.Derived? && effectStack != []
      requires ReadableBelow(Abs(), c + 1)
      modifies this
      ensures (Abs(), v) == SignalsModel.TrackDerived(old(Abs()), c)
      decreases c, 6, 0
    {
      ghost var st := Abs();
      var top := effectStack[|effectStack| - 1];
      Subscribe(c, top);
      ghost var st1 := Abs();
      v := SubscribedDerived(c);
      ghost var st2 := Abs();
      TrackDerivedSteps(st, c, st1, st2, v);
      PushRemover(Remover(c, top));
      TrackDerivedIs(st, c, st1, st2, v, Abs());
    }

    /** `subscribers.add(e)` on cell `c`. */
    method Subscribe(c: SigId, e: EffId)
      requires Valid(Abs()) && c < |cells| && e < |effects|
      modifies this
      ensures Abs() == AddSubscriber(old(Abs()), c, e)
    {
      cells := cells[c := cells[c].(subscribers := Add(cells[c].subscribers, e))];
    }

    /** `unsubscribeSet.add(remover)` on the effect of `rm`. */
    method PushRemover(rm: Remover)
      requires Valid(Abs()) && rm.effect < |effects| && rm.cell < |cells|
      requires effects[rm.effect].body.Inner? ==> rm.cell < effects[rm.effect].body.owner
      modifies this
      ensures Abs() == AddRemover(old(Abs()), rm)
    {
      effects := effects[rm.effect := effects[rm.effect].(removers := effects[rm.effect].removers + [rm])];
    }

    /** `currentValue = v` on cell `c`. */
    method StoreValue(c: SigId, v: V)
      requires Valid(Abs()) && c < |cells|
      modifies this
      ensures Abs() == SetCache(old(Abs()), c, v)
    {
      cells := cells[c := cells[c].(value := Some(v))];
    }

    /** The derived getter right after the reading effect joined (signals.ts:130-145). */
    method SubscribedDerived(c: SigId) returns (v: V)
      requires Valid(Abs()) && c < |cells| && cells[c].kind.Derived? && cells[c].subscribers != []
      requires ReadableBelow(Abs(), c + 1)
      modifies this
      ensures (Abs(), v) == SignalsModel.SubscribedDerived(old(Abs()), c)
      decreases c, 5, 1
    {
      if |cells[c].subscribers| == 1 {
        v := Activate(c);
      } else {
        v := TrackedRecompute(c);
      }
    }

    /** `cleanup = effect(...)` on the first subscriber (signals.ts:130-142). */
    method Activate(c: SigId) returns (v: V)
      requires Valid(Abs()) && c < |cells| && cells[c].kind.Derived? && cells[c].subscribers != []
      modifies this
      ensures (Abs(), v) == SignalsModel.Activate(old(Abs()), c)
      decreases c, 5, 0
    {
      ghost var st := Abs();
      var inner := CreateInner(c);
      assert st.cells[c].subscribers[0] in cells[c].subscribers;
      cells := cells[c := cells[c].(cleanup := InnerCleanup(inner))];
      v := cells[c].value.value;
    }

    /** `currentValue = calculate()` with the reader on the stack (signals.ts:143-145). */
    method TrackedRecompute(c: SigId) returns (v: V)
      requires Valid(Abs()) && c < |cells| && cells[c].kind.Derived? && ReadableBelow(Abs(), c + 1)
      modifies this
      ensures (Abs(), v) == SignalsModel.TrackedRecompute(old(Abs()), c)
      decreases c, 5, 0
    {
      v := Calculate(c);
      StoreValue(c, v);
    }

    /** `calculate()`: count the call, read the dependencies in order, combine. */
    method Calculate(c: SigId) returns (v: V)
      requires Valid(Abs()) && c < |cells| && cells[c].kind.Derived? && ReadableBelow(Abs(), c)
      modifies this
      ensures Abs() == SignalsModel.Calculate(old(Abs()), c).0 && v == SignalsModel.Calculate(old(Abs()), c).1
      decreases c, 1, 0
    {
      ghost var st := Abs();
      cells := cells[c := cells[c].(calculateCalls := cells[c].calculateCalls + 1)];
      CalculateUpdate(st, c, Abs());
      var combine := cells[c].kind.combine;
      var vs := ReadDeps(c);
      v := combine(vs);
    }

    /** The getter calls of `calculate()`, one dependency after the other. */
    method ReadDeps(c: SigId) returns (vs: seq<V>)
      requires Valid(Abs()) && c < |cells| && cells[c].kind.Derived? && ReadableBelow(Abs(), c)
      modifies this
      ensures Abs() == SignalsModel.ReadDeps(old(Abs()), c, 0).0 && vs == SignalsModel.ReadDeps(old(Abs()), c, 0).1
      decreases c, 0, |cells[c].kind.deps|
    {
      ghost var st := Abs();
      var n := |cells[c].kind.deps|;
      var k := 0;
      vs := [];
      while k < n
        invariant n == |st.cells[c].kind.deps| && Reading(st, c, Abs(), k, vs)
        decreases n - k
      {
        var x := ReadOne(c, k, st, vs);
        vs := vs + [x];
        k := k + 1;
      }
      ReadingDone(st, c, Abs(), k, vs);
    }

    /** The getter call of dependency `k` inside `calculate()`, after `vs`
        were read from `st`. */
    method ReadOne(c: SigId, k: nat, ghost st: State<V>, ghost vs: seq<V>) returns (x: V)
      requires Reading(st, c, Abs(), k, vs) && k < |st.cells[c].kind.deps|
      modifies this
      ensures Reading(st, c, Abs(), k + 1, vs + [x])
      decreases c, 0, |st.cells[c].kind.deps| - k - 1
    {
      ghost var s := Abs();
      assert CellOk(s, c);
      x := Get(cells[c].kind.deps[k]);
      ReadDepsUnfold(s, c, k, Abs(), x);
      ReadingStep(st, c, s, k, vs, Abs(), x);
    }

    /** `effect(...)` as the derived getter calls it: push the inner effect
        of `c`, run it once, pop it. */
    method CreateInner(c: SigId) returns (e: EffId)
      requires Valid(Abs()) && c < |cells| && cells[c].kind.Derived?
      modifies this
      ensures (Abs(), e) == SignalsModel.CreateInner(old(Abs()), c)
      decreases c, 4, 0
    {
      NewEffectValid(Abs(), Inner(c));
      e := |effects|;
      effects := effects + [Effect(Inner(c), [], 0)];
      effectStack := effectStack + [e];
      Invoke(e);
      effectStack := effectStack[..|effectStack| - 1];
    }

    /** `effect(callback)` (signals.ts:98-104): push, run once, pop. Returns
        the new effect; `Unsubscribe` with it is the returned function. */
    method CreateEffect(script: seq<Instr<V>>) returns (e: EffId)
      requires Valid(Abs()) && ScriptOk(Abs(), script)
      modifies this
      ensures (Abs(), e) == SignalsModel.CreateEffect(old(Abs()), script)
    {
      NewEffectValid(Abs(), User(script));
      e := |effects|;
      effects := effects + [Effect(User(script), [], 0)];
      effectStack := effectStack + [e];
      Invoke(e);
      effectStack := effectStack[..|effectStack| - 1];
    }

    /** One run of effect `e`'s callback, counted. A user callback runs its
        getter and setter calls in order. */
    method Invoke(e: EffId)
      requires Valid(Abs()) && e < |effects|
      requires effectStack == [] || effectStack[|effectStack| - 1] == e
      modifies this
      ensures Abs() == SignalsModel.Invoke(old(Abs()), e)
      decreases InvokeRank(Abs(), e), 3, 0
    {
      ghost var st := Abs();
      var body := effects[e].body;
      CountCall(e);
      InvokeSplit(st, e, Abs());
      match body
      case User(script) =>
        CallbackUser(Abs(), e, script);
        RunScript(script, 0);
      case Inner(d) =>
        CallbackInner(Abs(), e, d);
        InnerBody(d);
    }

    /** `effect()` counts the call before running the callback. */
    method CountCall(e: EffId)
      requires e < |effects|
      modifies this
      ensures Abs() == Counted(old(Abs()), e)
    {
      effects := effects[e := effects[e].(calls := effects[e].calls + 1)];
    }

    /** A user callback from instruction `i` on. */
    method RunScript(script: seq<Instr<V>>, i: nat)
      requires Valid(Abs()) && ScriptOk(Abs(), script) && i <= |script| && UserOnTop(Abs())
      modifies this
      ensures Abs() == SignalsModel.RunScript(old(Abs()), script, i)
      decreases |cells|, 1, |script| - i
    {
      if i < |script| {
        ghost var s0 := Abs();
        Step(script[i]);
        ghost var s1 := Abs();
        ExtendsKeepsScript(s0, s1, script);
        ghost var r1 := SignalsModel.RunScript(s1, script, i + 1);
        RunScript(script, i + 1);
        assert Abs() == r1;
      }
    }

    /** One getter or setter call of a user callback. */
    method Step(instr: Instr<V>)
      requires Valid(Abs()) && UserOnTop(Abs())
      requires match instr
               case Read(c) => c < |cells|
               case Write(c, _) => c < |cells| && cells[c].kind.Plain?
      modifies this
      ensures Abs() == SignalsModel.Step(old(Abs()), instr)
      decreases |cells|, 0, 0
    {
      match instr
      case Read(c) =>
        var x := Get(c);
      case Write(c, v) =>
        SetSignal(c, v);
    }

    /** The inner effect of derived cell `d` (signals.ts:132-141). */
    method InnerBody(d: SigId)
      requires Valid(Abs()) && d < |cells| && cells[d].kind.Derived? && ReadableBelow(Abs(), d)
      modifies this
      ensures Abs() == SignalsModel.InnerBody(old(Abs()), d)
      decreases d, 2, 0
    {
      var v := Calculate(d);
      if cells[d].value != Some(v) {
        StoreValue(d, v);
      }
      Schedule(d);
    }

    // -------------------------------------------------------------------------
    // Unsubscribing

    /** The function `effect` returns (signals.ts:103): every remover of `e`,
        in insertion order. */
    method Unsubscribe(e: EffId)
      requires Valid(Abs()) && e < |effects|
      modifies this
      ensures Abs() == SignalsModel.Unsubscribe(old(Abs()), e)
      decreases InvokeRank(Abs(), e), 1, 0
    {
      ghost var st := Abs();
      assert EffectOk(st, e);
      ghost var bound := InvokeRank(st, e);
      var rs := effects[e].removers;
      var i := 0;
      while i < |rs|
        invariant i <= |rs| && Valid(Abs()) && |cells| == |st.cells|
        invariant RunRemovers(Abs(), rs, i, bound) == RunRemovers(st, rs, 0, bound)
        decreases |rs| - i
      {
        Remove(rs[i]);
        i := i + 1;
      }
    }

    /** One remover closure (signals.ts:57-63 and 146-152). */
    method Remove(rm: Remover)
      requires Valid(Abs()) && rm.cell < |cells|
      modifies this
      ensures Abs() == SignalsModel.Remove(old(Abs()), rm)
      decreases rm.cell, 2, 0
    {
      ghost var st := Abs();
      var c := rm.cell;
      assert CellOk(st, c);
      var cell1 := cells[c].(subscribers := Delete(cells[c].subscribers, rm.effect));
      CellUpdated(st, c, cell1);
      cells := cells[c := cell1];
      if cells[c].cleanup != NoCleanup && cells[c].subscribers == [] {
        if cells[c].cleanup == HookCleanup {
          cells := cells[c := cells[c].(cleanupCalls := cells[c].cleanupCalls + 1, cleanup := NoCleanup)];
        } else {
          assert CellOk(Abs(), c);
          Unsubscribe(cells[c].cleanup.inner);
          cells := cells[c := cells[c].(cleanup := NoCleanup)];
        }
      }
    }

    // -------------------------------------------------------------------------
    // The flush

    /** `notify()` (signals.ts:9-22). The outer loop reads `awaiting` afresh
        on every round, so sets added while it runs are visited too. */
    method Notify()
      requires Valid(Abs()) && effectStack == [] && microtaskQueued && processed == {}
      modifies this
      ensures Abs() == SignalsModel.Notify(old(Abs()))
    {
      ghost var st := Abs();
      FlushingStart(st);
      var i := 0;
      while i < |awaiting|
        invariant Flushing(st, Abs(), i)
        decreases |st.cells| - i
      {
        FlushSet(st, i);
        i := i + 1;
      }
      ghost var s1 := Abs();
      EndFlush();
      NotifyEnd(st, s1, i, Abs());
    }

    /** One pass of the outer loop of a flush: the subscribers of the
        awaiting set at position `i`. */
    method FlushSet(ghost st: State<V>, i: nat)
      requires Flushing(st, Abs(), i) && i < |awaiting|
      modifies this
      ensures Flushing(st, Abs(), i + 1) && i < |st.cells|
    {
      ghost var s0 := Abs();
      FlushingFacts(st, s0, i);
      var c := awaiting[i];
      RunSubscribers(cells[c].subscribers);
      FlushingStep(st, s0, i, Abs());
    }

    /** The end of a flush: clear the scheduler and resolve the tick. */
    method EndFlush()
      modifies this
      ensures Abs() == FlushCleared(old(Abs()))
    {
      awaiting, processed, microtaskQueued, ticksResolved := [], {}, false, ticksResolved + 1;
    }

    /** The inner loop of a flush over one subscriber set: run every member
        not yet processed in this flush, then mark it processed. */
    method RunSubscribers(subs: seq<EffId>)
      requires Valid(Abs()) && effectStack == [] && microtaskQueued
      requires forall x :: x in subs ==> x < |effects|
      modifies this
      ensures Abs() == NotifySet(old(Abs()), subs, 0)
    {
      ghost var st := Abs();
      var j := 0;
      while j < |subs|
        invariant RunningSet(st, subs, Abs(), j)
        decreases |subs| - j
      {
        RunOne(subs, j, st);
        j := j + 1;
      }
    }

    /** `processed.add(e)`. */
    method MarkProcessed(e: EffId)
      requires Valid(Abs())
      modifies this
      ensures Abs() == SignalsModel.MarkProcessed(old(Abs()), e)
    {
      processed := processed + {e};
    }

    /** One turn of that loop, on subscriber `subs[j]`. */
    method RunOne(subs: seq<EffId>, j: nat, ghost st: State<V>)
      requires RunningSet(st, subs, Abs(), j) && j < |subs|
      modifies this
      ensures RunningSet(st, subs, Abs(), j + 1)
    {
      ghost var s0 := Abs();
      var x := subs[j];
      assert x in subs;
      if x !in processed {
        Invoke(x);
        ghost var s1 := Abs();
        MarkProcessed(x);
        RunningRun(st, subs, s0, j, s1, Abs());
      } else {
        RunningSkip(st, subs, s0, j);
      }
    }
  }

  // ---------------------------------------------------------------------------
  // Each single-field update of the model as the assignment the engine makes

  /** The derived getter inside an effect, after the subscription and the
      activation or recomputation: the remover may be recorded. */
  lemma TrackDerivedSteps<V>(st: State<V>, c: SigId, st1: State<V>, st2: State<V>, v: V)
    requires Valid(st) && c < |st.cells| && st.cells[c].kind.Derived? && st.stack != []
    requires ReadableBelow(st, c + 1)
    requires st1 == AddSubscriber(st, c, st.stack[|st.stack| - 1])
    requires Valid(st1) && st1.cells[c].subscribers != [] && (st2, v) == SubscribedDerived(st1, c)
    ensures var top := st.stack[|st.stack| - 1];
      && Valid(st2) && top < |st2.effects| && c < |st2.cells|
      && (st2.effects[top].body.Inner? ==> c < st2.effects[top].body.owner)
  {
    ExtendsTrans(st, st1, st2);
  }

  lemma TrackDerivedIs<V>(st: State<V>, c: SigId, st1: State<V>, st2: State<V>, v: V, st3: State<V>)
    requires Valid(st) && c < |st.cells| && st.cells[c].kind.Derived? && st.stack != []
    requires ReadableBelow(st, c + 1)
    requires st1 == AddSubscriber(st, c, st.stack[|st.stack| - 1])
    requires Valid(st1) && st1.cells[c].subscribers != [] && (st2, v) == SubscribedDerived(st1, c)
    requires Valid(st2) && st.stack[|st.stack| - 1] < |st2.effects| && c < |st2.cells|
    requires st2.effects[st.stack[|st.stack| - 1]].body.Inner? ==> c < st2.effects[st.stack[|st.stack| - 1]].body.owner
    requires st3 == AddRemover(st2, Remover(c, st.stack[|st.stack| - 1]))
    ensures TrackDerived(st, c) == (st3, v)
  {
  }

  lemma AddSubscriberIs<V>(st: State<V>, c: SigId, e: EffId)
    requires Valid(st) && c < |st.cells| && e < |st.effects|
    ensures AddSubscriber(st, c, e) ==
      st.(cells := st.cells[c := st.cells[c].(subscribers := Add(st.cells[c].subscribers, e))])
  {
  }

  lemma FireOnSubscribeIs<V>(st: State<V>, c: SigId)
    requires Valid(st) && c < |st.cells| && st.cells[c].kind.Plain? && st.cells[c].subscribers != []
    ensures var cell := st.cells[c];
      FireOnSubscribe(st, c) ==
        st.(cells := st.cells[c := cell.(subscribeCalls := cell.subscribeCalls + 1,
                                         cleanup := if cell.kind.hook == HookWithCleanup then HookCleanup else NoCleanup)])
  {
  }

  lemma AddRemoverIs<V>(st: State<V>, rm: Remover)
    requires Valid(st) && rm.effect < |st.effects| && rm.cell < |st.cells|
    requires st.effects[rm.effect].body.Inner? ==> rm.cell < st.effects[rm.effect].body.owner
    ensures var eff := st.effects[rm.effect];
      AddRemover(st, rm) == st.(effects := st.effects[rm.effect := eff.(removers := eff.removers + [rm])])
  {
  }

  lemma AppendAssoc<T>(a: seq<T>, b: seq<T>, d: seq<T>)
    ensures a + (b + d) == (a + b) + d && a + [] == a
  {
  }

  /** `calculate()` is the count followed by the reads of the dependencies. */
  lemma CalculateUpdate<V>(st: State<V>, c: SigId, st1: State<V>)
    requires Valid(st) && c < |st.cells| && st.cells[c].kind.Derived? && ReadableBelow(st, c)
    requires st1 == st.(cells := st.cells[c := st.cells[c].(calculateCalls := st.cells[c].calculateCalls + 1)])
    ensures Valid(st1) && c < |st1.cells| && st1.cells[c].kind == st.cells[c].kind && ReadableBelow(st1, c)
    ensures Calculate(st, c).0 == ReadDeps(st1, c, 0).0
    ensures Calculate(st, c).1 == st.cells[c].kind.combine(ReadDeps(st1, c, 0).1)
  {
    assert st1 == CountCalculate(st, c);
  }

  lemma ReadDepsUnfold<V>(s: State<V>, c: SigId, k: nat, s': State<V>, x: V)
    requires Valid(s) && c < |s.cells| && s.cells[c].kind.Derived? && ReadableBelow(s, c)
    requires k < |s.cells[c].kind.deps| && s.cells[c].kind.deps[k] < c
    requires SignalsModel.Get(s, s.cells[c].kind.deps[k]).0 == s' && SignalsModel.Get(s, s.cells[c].kind.deps[k]).1 == x
    ensures Valid(s') && |s'.cells| == |s.cells| && s'.cells[c].kind == s.cells[c].kind && ReadableBelow(s', c)
    ensures ReadDeps(s, c, k).0 == ReadDeps(s', c, k + 1).0
    ensures ReadDeps(s, c, k).1 == [x] + ReadDeps(s', c, k + 1).1
  {
  }

  /** The loop of `Engine.ReadDeps` after `k` dependencies of `c` were read
      into `vs`, starting from `st`: what is left to read yields what
      `calculate()` reads from `st`. */
  ghost predicate Reading<V>(st: State<V>, c: SigId, s: State<V>, k: nat, vs: seq<V>)
  {
    && Valid(st) && c < |st.cells| && st.cells[c].kind.Derived? && ReadableBelow(st, c)
    && Valid(s) && |s.cells| == |st.cells| && s.cells[c].kind == st.cells[c].kind && ReadableBelow(s, c)
    && k <= |st.cells[c].kind.deps|
    && ReadDeps(s, c, k).0 == ReadDeps(st, c, 0).0
    && vs + ReadDeps(s, c, k).1 == ReadDeps(st, c, 0).1
  }

  lemma ReadingStep<V>(st: State<V>, c: SigId, s: State<V>, k: nat, vs: seq<V>, s': State<V>, x: V)
    requires Reading(st, c, s, k, vs) && k < |st.cells[c].kind.deps|
    requires Valid(s') && |s'.cells| == |s.cells| && s'.cells[c].kind == s.cells[c].kind && ReadableBelow(s', c)
    requires ReadDeps(s, c, k).0 == ReadDeps(s', c, k + 1).0
    requires ReadDeps(s, c, k).1 == [x] + ReadDeps(s', c, k + 1).1
    ensures Reading(st, c, s', k + 1, vs + [x])
  {
    AppendAssoc(vs, [x], ReadDeps(s', c, k + 1).1);
  }

  lemma ReadingDone<V>(st: State<V>, c: SigId, s: State<V>, k: nat, vs: seq<V>)
    requires Reading(st, c, s, k, vs) && k == |s.cells[c].kind.deps|
    ensures s == ReadDeps(st, c, 0).0 && vs == ReadDeps(st, c, 0).1
  {
  }

  /** Subscribing the reader and firing the hook, as one update of the cell. */
  lemma SubscribeUpdate<V>(st: State<V>, c: SigId, top: EffId)
    requires Valid(st) && c < |st.cells| && st.cells[c].kind.Plain? && top < |st.effects|
    ensures var cell := st.cells[c];
      && var subs := Add(cell.subscribers, top);
      && var cell' := if cell.kind.hook != NoHook && |subs| == 1
                      then cell.(subscribers := subs, subscribeCalls := cell.subscribeCalls + 1,
                                 cleanup := if cell.kind.hook == HookWithCleanup then HookCleanup else NoCleanup)
                      else cell.(subscribers := subs);
      && SubscribeHook(AddSubscriber(st, c, top), c) == st.(cells := st.cells[c := cell'])
  {
    var st1 := AddSubscriber(st, c, top);
    AddSubscriberIs(st, c, top);
    var cell := st.cells[c];
    var subs := Add(cell.subscribers, top);
    var c1 := cell.(subscribers := subs);
    assert st1.cells[c] == c1;
    if cell.kind.hook != NoHook && |subs| == 1 {
      FireOnSubscribeIs(st1, c);
      var c2 := c1.(subscribeCalls := cell.subscribeCalls + 1,
                    cleanup := if cell.kind.hook == HookWithCleanup then HookCleanup else NoCleanup);
      assert st1.cells[c := c2] == st.cells[c := c2];
    } else {
      assert SubscribeHook(st1, c) == st1;
    }
  }

  /** The plain tracked read as one update of the cell and of the reader. */
  lemma TrackPlainUpdate<V>(st: State<V>, c: SigId, cell': Cell<V>, r: State<V>)
    requires Valid(st) && c < |st.cells| && st.cells[c].kind.Plain? && st.stack != []
    requires ReadableBelow(st, c + 1)
    requires st.stack[|st.stack| - 1] < |st.effects|
    requires SubscribeHook(AddSubscriber(st, c, st.stack[|st.stack| - 1]), c) == st.(cells := st.cells[c := cell'])
    requires var top := st.stack[|st.stack| - 1];
      r == st.(cells := st.cells[c := cell'],
               effects := st.effects[top := st.effects[top].(removers := st.effects[top].removers + [Remover(c, top)])])
    ensures TrackPlain(st, c).0 == r && Some(TrackPlain(st, c).1) == st.cells[c].value
  {
    var top := st.stack[|st.stack| - 1];
    var st2 := st.(cells := st.cells[c := cell']);
    AddRemoverIs(st2, Remover(c, top));
  }

  // ---------------------------------------------------------------------------
  // One step of each recursive model function, as the engine takes it

  lemma NotifySetSkip<V>(st: State<V>, subs: seq<EffId>, j: nat)
    requires Valid(st) && st.stack == [] && st.queued && j < |subs|
    requires forall x :: x in subs ==> x < |st.effects|
    requires subs[j] in st.processed
    ensures NotifySet(st, subs, j) == NotifySet(st, subs, j + 1)
  {
  }

  lemma NotifySetRun<V>(st: State<V>, subs: seq<EffId>, j: nat, st1: State<V>, st2: State<V>)
    requires Valid(st) && st.stack == [] && st.queued && j < |subs|
    requires forall x :: x in subs ==> x < |st.effects|
    requires subs[j] !in st.processed && subs[j] < |st.effects|
    requires st1 == Invoke(st, subs[j])
    requires st2 == MarkProcessed(st1, subs[j])
    ensures Valid(st2) && st2.stack == [] && st2.queued && |st2.effects| == |st.effects|
    ensures NotifySet(st, subs, j) == NotifySet(st2, subs, j + 1)
  {
  }

  /** The inner loop of a flush has run the subscribers of `subs` before
      `j`, and what remains of it is what remained at its start. */
  ghost predicate RunningSet<V>(st: State<V>, subs: seq<EffId>, s: State<V>, j: nat)
  {
    && Valid(st) && st.stack == [] && st.queued && (forall x :: x in subs ==> x < |st.effects|)
    && Valid(s) && s.stack == [] && s.queued && (forall x :: x in subs ==> x < |s.effects|)
    && j <= |subs| && NotifySet(s, subs, j) == NotifySet(st, subs, 0)
  }

  lemma RunningSkip<V>(st: State<V>, subs: seq<EffId>, s: State<V>, j: nat)
    requires RunningSet(st, subs, s, j) && j < |subs| && subs[j] in s.processed
    ensures RunningSet(st, subs, s, j + 1)
  {
    NotifySetSkip(s, subs, j);
  }

  lemma RunningRun<V>(st: State<V>, subs: seq<EffId>, s0: State<V>, j: nat, s1: State<V>, s2: State<V>)
    requires RunningSet(st, subs, s0, j) && j < |subs|
    requires subs[j] !in s0.processed && subs[j] < |s0.effects|
    requires s1 == Invoke(s0, subs[j])
    requires s2 == MarkProcessed(s1, subs[j])
    ensures RunningSet(st, subs, s2, j + 1)
  {
    NotifySetRun(s0, subs, j, s1, s2);
  }

  /** The outer loop of a flush has handled the awaiting sets before `i`,
      and what remains of it is what remained at its start. */
  ghost predicate Flushing<V>(st: State<V>, s: State<V>, i: nat)
  {
    && Valid(st) && st.stack == [] && st.queued
    && Valid(s) && s.stack == [] && s.queued && i <= |s.awaiting| && |s.cells| == |st.cells|
    && NotifyFrom(s, i) == NotifyFrom(st, 0)
  }

  lemma FlushingStart<V>(st: State<V>)
    requires Valid(st) && st.stack == [] && st.queued
    ensures Flushing(st, st, 0)
  {
  }

  lemma FlushingFacts<V>(st: State<V>, s: State<V>, i: nat)
    requires Flushing(st, s, i) && i < |s.awaiting|
    ensures Valid(s) && s.stack == [] && s.queued
    ensures i < |st.cells| && s.awaiting[i] < |s.cells|
    ensures forall x :: x in s.cells[s.awaiting[i]].subscribers ==> x < |s.effects|
  {
    BoundedLength(s.awaiting, |s.cells|);
    assert s.awaiting[i] in s.awaiting;
    assert CellOk(s, s.awaiting[i]);
  }

  lemma FlushingStep<V>(st: State<V>, s: State<V>, i: nat, s1: State<V>)
    requires Flushing(st, s, i) && i < |s.awaiting| && s.awaiting[i] < |s.cells|
    requires forall x :: x in s.cells[s.awaiting[i]].subscribers ==> x < |s.effects|
    requires s1 == NotifySet(s, s.cells[s.awaiting[i]].subscribers, 0)
    ensures Flushing(st, s1, i + 1)
  {
    BoundedLength(s.awaiting, |s.cells|);
  }

  lemma NotifyEnd<V>(st: State<V>, st1: State<V>, i: nat, r: State<V>)
    requires st.processed == {} && Flushing(st, st1, i) && i == |st1.awaiting|
    requires r == FlushCleared(st1)
    ensures Notify(st) == r
  {
  }
}
