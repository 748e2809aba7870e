/** The engine of `create-signal.ts` as the source runs it: one object whose
    fields are the module-level variables (`effectCallback` and
    `effectUnsubscribeSet` as one `slot`, `awaitingNotify`, `microtaskQueued`)
    together with the closure state of every signal (`cells`) and every effect
    (`effects`). Each method updates the fields in place and is proved to
    compute the function of `CreateSignalModel` with the same name; what those
    functions promise is proved there and in `CreateSignalProps`. */
module CreateSignal {
  import opened OrderedSet
  import opened CreateSignalModel

  class Module<V(==)> {
    var cells: seq<Cell<V>>
    var effects: seq<Effect<V>>
    var slot: Slot
    var awaitingNotify: seq<SigId>
    var microtaskQueued: bool
    var scheduled: nat
    var flushes: nat

    /** The fields as one value of the model. */
    ghost function Abs(): State<V>
      reads this
    {
      State(cells, effects, slot, awaitingNotify, microtaskQueued, scheduled, flushes)
    }

    /** The module as loaded (create-signal.ts:6-7, 19-20). */
    constructor ()
      ensures Abs() == Init<V>()
    {
      cells, effects, slot, awaitingNotify := [], [], Empty, [];
      microtaskQueued, scheduled, flushes := false, 0, 0;
    }

    /** `createSignal(initialValue)` (create-signal.ts:64-66). */
    method NewSignal(initial: V) returns (c: SigId)
      requires Valid(Abs())
      modifies this
      ensures (Abs(), c) == CreateSignalModel.NewSignal(old(Abs()), initial)
    {
      c := |cells|;
      cells := cells + [Cell(initial, [])];
    }

    /** The getter of signal `c` (create-signal.ts:68-78). */
    method Get(c: SigId) returns (v: V)
      requires Valid(Abs()) && c < |cells|
      modifies this
      ensures (Abs(), v) == CreateSignalModel.Get(old(Abs()), c)
    {
      if slot.Tracking? {
        Track(c, slot.effect);
      }
      v := cells[c].value;
    }

    /** `subscribers.add(effectCallback)` and the bound remover added to
        `effectUnsubscribeSet`. */
    method Track(c: SigId, e: EffId)
      requires Valid(Abs()) && c < |cells| && e < |effects|
      modifies this
      ensures Abs() == CreateSignalModel.Track(old(Abs()), c, e)
    {
      cells := cells[c := cells[c].(subscribers := Add(cells[c].subscribers, e))];
      effects := effects[e := effects[e].(removers := effects[e].removers + [c])];
    }

    /** The setter of signal `c` (create-signal.ts:80-87). */
    method Set(c: SigId, v: V)
      requires Valid(Abs()) && c < |cells|
      modifies this
      ensures Abs() == CreateSignalModel.Set(old(Abs()), c, v)
    {
      cells := cells[c := Cell(v, cells[c].subscribers)];
      awaitingNotify := Add(awaitingNotify, c);
      if !microtaskQueued {
        microtaskQueued := true;
        scheduled := scheduled + 1;
      }
    }

    /** `createEffect(callback)` (create-signal.ts:41-50). Returns the new
        effect; `Unsubscribe` with it is the returned function. */
    method CreateEffect(script: seq<Instr<V>>) returns (e: EffId)
      requires Valid(Abs()) && ScriptOk(|cells|, script)
      modifies this
      ensures (Abs(), e) == CreateSignalModel.CreateEffect(old(Abs()), script)
    {
      ghost var st := Abs();
      e := |effects|;
      Start(script);
      Invoke(e);
      slot := Empty;
    }

    /** `effectCallback = callback; effectUnsubscribeSet = new Set()`. */
    method Start(script: seq<Instr<V>>)
      requires Valid(Abs()) && ScriptOk(|cells|, script)
      modifies this
      ensures Abs() == Started(old(Abs()), script)
    {
      slot := Tracking(|effects|);
      effects := effects + [Effect(script, [], 0)];
    }

    /** One call of effect `e`'s callback, counted. */
    method Invoke(e: EffId)
      requires Valid(Abs()) && e < |effects|
      modifies this
      ensures Abs() == CreateSignalModel.Invoke(old(Abs()), e)
    {
      CountCall(e);
      assert EffectOk(Abs(), e);
      RunScript(effects[e].script);
    }

    /** The call counter of effect `e` goes up. */
    method CountCall(e: EffId)
      requires Valid(Abs()) && e < |effects|
      modifies this
      ensures Abs() == Counted(old(Abs()), e)
    {
      effects := effects[e := effects[e].(calls := effects[e].calls + 1)];
    }

    /** A callback body: its getter and setter calls, in order. */
    method RunScript(script: seq<Instr<V>>)
      requires Valid(Abs()) && ScriptOk(|cells|, script)
      modifies this
      ensures Abs() == CreateSignalModel.RunScript(old(Abs()), script, 0)
    {
      ghost var st := Abs();
      RunningStart(st, script);
      var i := 0;
      while i < |script|
        invariant Running(st, script, i, Abs())
        decreases |script| - i
      {
        ghost var s := Abs();
        assert script[i].cell < |cells|;
        Step(script[i]);
        RunningStep(st, script, i, s, Abs());
        i := i + 1;
      }
      RunningDone(st, script, i, Abs());
    }

    /** One getter or setter call of a callback. */
    method Step(instr: Instr<V>)
      requires Valid(Abs()) && instr.cell < |cells|
      modifies this
      ensures Abs() == CreateSignalModel.Step(old(Abs()), instr)
    {
      match instr
      case Read(c) =>
        var x := Get(c);
      case Write(c, v) =>
        Set(c, v);
    }

    /** The function `createEffect` returns (create-signal.ts:45-47): every
        remover of `e`, in insertion order. */
    method Unsubscribe(e: EffId)
      requires Valid(Abs()) && e < |effects|
      modifies this
      ensures Abs() == CreateSignalModel.Unsubscribe(old(Abs()), e)
    {
      ghost var st := Abs();
      assert EffectOk(st, e);
      var rs := effects[e].removers;
      var k := 0;
      while k < |rs|
        invariant k <= |rs| && Valid(Abs()) && effects == st.effects && |cells| == |st.cells|
        invariant RunRemovers(Abs(), e, k) == RunRemovers(st, e, 0)
        decreases |rs| - k
      {
        assert rs[k] in rs;
        cells := cells[rs[k] := cells[rs[k]].(subscribers := Delete(cells[rs[k]].subscribers, e))];
        k := k + 1;
      }
    }

    /** `notifySubscribers()` (create-signal.ts:9-17), run by the queued
        microtask. Returns the sets it visited, for the proofs only. */
    method Notify() returns (ghost visited: seq<SigId>)
      requires Valid(Abs()) && slot == Empty && microtaskQueued
      modifies this
      ensures (Abs(), visited) == CreateSignalModel.Notify(old(Abs()))
    {
      ghost var st := Abs();
      FlushingStart(st);
      var i := 0;
      while i < |awaitingNotify|
        invariant Flushing(st, Abs(), i)
        decreases |st.cells| - i
      {
        NotifyOne(st, i);
        i := i + 1;
      }
      FlushingDone(st, Abs(), i);
      visited := awaitingNotify;
      Clear();
    }

    /** `awaitingNotify.clear(); microtaskQueued = false`. */
    method Clear()
      requires Valid(Abs()) && microtaskQueued
      modifies this
      ensures Abs() == Cleared(old(Abs()))
    {
      awaitingNotify := [];
      microtaskQueued := false;
      flushes := flushes + 1;
    }

    /** The inner loop of `notifySubscribers` for the set at position `i`. */
    method NotifyOne(ghost st: State<V>, i: nat)
      requires Flushing(st, Abs(), i) && i < |awaitingNotify|
      modifies this
      ensures Flushing(st, Abs(), i + 1) && i < |st.cells|
    {
      ghost var s := Abs();
      var c := awaitingNotify[i];
      assert c in awaitingNotify && CellOk(s, c);
      var subs := cells[c].subscribers;
      RunningSetStart(s, subs);
      var j := 0;
      while j < |subs|
        invariant RunningSet(s, subs, j, Abs())
        decreases |subs| - j
      {
        RunOne(s, subs, j);
        j := j + 1;
      }
      RunningSetDone(s, subs, j, Abs());
      FlushingStep(st, s, i, Abs());
    }

    /** `effect()` for the member at position `j` of the set being flushed. */
    method RunOne(ghost s: State<V>, subs: seq<EffId>, j: nat)
      requires RunningSet(s, subs, j, Abs()) && j < |subs|
      modifies this
      ensures RunningSet(s, subs, j + 1, Abs())
    {
      assert subs[j] in subs;
      ghost var s0 := Abs();
      Invoke(subs[j]);
      RunningSetStep(s, subs, j, s0, Abs());
    }
  }
}
