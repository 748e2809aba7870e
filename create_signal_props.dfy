/** Properties of the engine of `create-signal.ts` that relate several
    operations: reads after writes, at most one queued flush, a flush that
    runs an effect once per awaiting set holding it, the single-slot context
    that a nested `createEffect` does not restore, unsubscribing, and the
    invariant the public operations keep. */
module CreateSignalProps {
  import opened OrderedSet
  import opened CreateSignalModel

  // ---------------------------------------------------------------------------
  // The invariant between public calls

  /** A state between two public calls: well formed, every subscription can
      be undone by its effect's unsubscribe function, and no callback running
      (so the slot is empty). */
  ghost predicate Coherent<V>(st: State<V>)
  {
    Valid(st) && Linked(st) && st.slot == Empty
  }

  lemma InitCoherent<V>()
    ensures Coherent(Init<V>())
  {
  }

  /** A tracked run keeps every subscription undoable: a new subscriber is the
      effect in the slot, whose unsubscribe set gained the cell just read. */
  lemma {:induction false} LinkedTracked<V>(st: State<V>, read: seq<SigId>, r: State<V>)
    requires Valid(st) && Linked(st) && Tracked(st, read, r)
    ensures Linked(r)
  {
    forall c, i | 0 <= c < |r.cells| && 0 <= i < |r.cells[c].subscribers|
      ensures HasRemover(r, c, r.cells[c].subscribers[i])
    {
      var x := r.cells[c].subscribers[i];
      assert x in r.cells[c].subscribers;
      assert x in st.cells[c].subscribers || (st.slot == Tracking(x) && c in read);
      if x in st.cells[c].subscribers {
        LinkedAt(st, c, x);
        assert r.effects[x].removers == st.effects[x].removers + (if st.slot == Tracking(x) then read else []);
      } else {
        assert r.effects[x].removers == st.effects[x].removers + read;
      }
    }
  }

  lemma {:induction false} LinkedSameLinks<V>(st: State<V>, r: State<V>)
    requires Linked(st) && SameLinks(st, r)
    ensures Linked(r)
  {
    forall c, i | 0 <= c < |r.cells| && 0 <= i < |r.cells[c].subscribers|
      ensures HasRemover(r, c, r.cells[c].subscribers[i])
    {
      var x := r.cells[c].subscribers[i];
      assert x in r.cells[c].subscribers;
      assert x in st.cells[c].subscribers;
      LinkedAt(st, c, x);
      assert r.effects[x].removers == st.effects[x].removers;
    }
  }

  lemma {:induction false} NewSignalCoherent<V>(st: State<V>, initial: V)
    requires Coherent(st)
    ensures Coherent(NewSignal(st, initial).0)
  {
    var r := NewSignal(st, initial).0;
    forall c, i | 0 <= c < |r.cells| && 0 <= i < |r.cells[c].subscribers|
      ensures HasRemover(r, c, r.cells[c].subscribers[i])
    {
      var x := r.cells[c].subscribers[i];
      assert r.cells[c] == st.cells[c];
      assert st.cells[c].subscribers[i] == x;
    }
  }

  lemma {:induction false} GetCoherent<V>(st: State<V>, c: SigId)
    requires Coherent(st) && c < |st.cells|
    ensures Coherent(Get(st, c).0)
  {
    assert Get(st, c).0 == st;
  }

  lemma {:induction false} SetCoherent<V>(st: State<V>, c: SigId, v: V)
    requires Coherent(st) && c < |st.cells|
    ensures Coherent(Set(st, c, v))
  {
    LinkedSameLinks(st, Set(st, c, v));
  }

  lemma {:induction false} CreateEffectCoherent<V>(st: State<V>, script: seq<Instr<V>>)
    requires Coherent(st) && ScriptOk(|st.cells|, script)
    ensures Coherent(CreateEffect(st, script).0)
  {
    var (r, e) := CreateEffect(st, script);
    forall c, i | 0 <= c < |r.cells| && 0 <= i < |r.cells[c].subscribers|
      ensures HasRemover(r, c, r.cells[c].subscribers[i])
    {
      var x := r.cells[c].subscribers[i];
      assert x in r.cells[c].subscribers;
      if x in st.cells[c].subscribers {
        LinkedAt(st, c, x);
        assert r.effects[x] == st.effects[x];
      }
    }
  }

  lemma {:induction false} UnsubscribeCoherent<V>(st: State<V>, e: EffId)
    requires Coherent(st) && e < |st.effects|
    ensures Coherent(Unsubscribe(st, e))
  {
    var r := Unsubscribe(st, e);
    forall c, i | 0 <= c < |r.cells| && 0 <= i < |r.cells[c].subscribers|
      ensures HasRemover(r, c, r.cells[c].subscribers[i])
    {
      var x := r.cells[c].subscribers[i];
      assert x in r.cells[c].subscribers;
      assert x in st.cells[c].subscribers;
      LinkedAt(st, c, x);
    }
  }

  lemma {:induction false} NotifyCoherent<V>(st: State<V>)
    requires Coherent(st) && st.queued
    ensures Coherent(Notify(st).0)
  {
    LinkedSameLinks(st, Notify(st).0);
  }

  // ---------------------------------------------------------------------------
  // Reads and writes

  /** A read right after a write sees the written value with no flush in
      between, whatever the old value was; other signals keep theirs. */
  lemma {:induction false} ReadAfterWrite<V>(st: State<V>, c: SigId, v: V, d: SigId)
    requires Valid(st) && c < |st.cells| && d < |st.cells|
    ensures Get(Set(st, c, v), c).1 == v
    ensures d != c ==> Get(Set(st, c, v), d).1 == st.cells[d].value
  {
  }

  /** Writing the value a signal already holds still notifies: its set joins
      `awaitingNotify` and a flush is pending. */
  lemma {:induction false} SameValueStillNotifies<V>(st: State<V>, c: SigId)
    requires Valid(st) && c < |st.cells|
    ensures var r := Set(st, c, st.cells[c].value);
      r.cells == st.cells && c in r.awaiting && r.queued
  {
    var r := Set(st, c, st.cells[c].value);
    assert r.cells[c] == st.cells[c];
  }

  /** Two writes in one turn queue at most one `notifySubscribers`, and both
      sets await it. */
  lemma {:induction false} TwoWritesOneFlush<V>(st: State<V>, a: SigId, v: V, b: SigId, w: V)
    requires Valid(st) && a < |st.cells| && b < |st.cells|
    ensures var r := Set(Set(st, a, v), b, w);
      && r.scheduled == st.scheduled + (if st.queued then 0 else 1)
      && a in r.awaiting && b in r.awaiting
      && r.scheduled == r.flushes + 1
  {
  }

  /** A read outside any callback changes nothing; inside one it subscribes
      exactly the effect in the slot. */
  lemma {:induction false} ReadSubscribesSlot<V>(st: State<V>, c: SigId, x: EffId)
    requires Valid(st) && c < |st.cells|
    ensures var r := Get(st, c).0;
      x in r.cells[c].subscribers <==> x in st.cells[c].subscribers || st.slot == Tracking(x)
  {
    var r := Step(st, Read(c));
    assert [c] == Reads(Instr<V>.Read(c));
  }

  // ---------------------------------------------------------------------------
  // Effects

  /** `createEffect` inside another effect's callback leaves the slot empty,
      so a later read in the outer callback no longer subscribes it. */
  lemma {:induction false} ContextNotRestored<V>(st: State<V>, script: seq<Instr<V>>, c: SigId, x: EffId)
    requires Valid(st) && st.slot == Tracking(x) && ScriptOk(|st.cells|, script) && c < |st.cells|
    ensures var r := CreateEffect(st, script).0;
      r.slot == Empty && Get(r, c).0 == r
  {
  }

  /** After `createEffect`, a write to a signal its callback read makes the
      next flush run it a second time; nothing runs it before the flush. */
  lemma {:induction false} WriteRerunsReader<V>(st: State<V>, script: seq<Instr<V>>, c: SigId, v: V)
    requires Valid(st) && st.slot == Empty && ScriptOk(|st.cells|, script)
    requires c in ReadCells(script)
    ensures var (s1, e) := CreateEffect(st, script);
      var s2 := Set(s1, c, v);
      && s2.effects[e].calls == 1
      && Notify(s2).0.effects[e].calls >= 2
  {
    var (s1, e) := CreateEffect(st, script);
    assert c < |st.cells| by {
      var i :| 0 <= i < |script| && script[i] == Read(c);
    }
    assert e in s1.cells[c].subscribers;
    FlushRunsSubscriber(Set(s1, c, v), c, e);
  }

  // ---------------------------------------------------------------------------
  // The flush

  /** Every awaiting set from `i` on that holds `e` at position `p` is one
      more run. */
  lemma {:induction false} HitsOne<V>(st: State<V>, aw: seq<SigId>, i: nat, e: EffId, p: nat)
    requires i <= p < |aw| && aw[p] < |st.cells| && e in st.cells[aw[p]].subscribers
    ensures Hits(st, aw, i, e) >= 1
    decreases p - i
  {
    if i < p {
      HitsOne(st, aw, i + 1, e, p);
    }
  }

  lemma {:induction false} HitsTwo<V>(st: State<V>, aw: seq<SigId>, i: nat, e: EffId, p: nat, q: nat)
    requires i <= p < q < |aw|
    requires aw[p] < |st.cells| && e in st.cells[aw[p]].subscribers
    requires aw[q] < |st.cells| && e in st.cells[aw[q]].subscribers
    ensures Hits(st, aw, i, e) >= 2
    decreases p - i
  {
    if i < p {
      HitsTwo(st, aw, i + 1, e, p, q);
    } else {
      HitsOne(st, aw, i + 1, e, q);
    }
  }

  /** An effect in no subscriber set is never run by a flush. */
  lemma {:induction false} HitsNone<V>(st: State<V>, aw: seq<SigId>, i: nat, e: EffId)
    requires forall c :: 0 <= c < |st.cells| ==> e !in st.cells[c].subscribers
    ensures Hits(st, aw, i, e) == 0
    decreases |aw| - i
  {
    if i < |aw| {
      HitsNone(st, aw, i + 1, e);
    }
  }

  /** No deduplication: an effect subscribed to two awaiting signals runs
      twice in one flush. */
  lemma {:induction false} FlushRunsTwice<V>(st: State<V>, a: SigId, b: SigId, e: EffId)
    requires Valid(st) && st.slot == Empty && st.queued && e < |st.effects|
    requires a != b && a in st.awaiting && b in st.awaiting
    requires e in st.cells[a].subscribers && e in st.cells[b].subscribers
    ensures Notify(st).0.effects[e].calls >= st.effects[e].calls + 2
  {
    var aw := Notify(st).1;
    var p :| 0 <= p < |st.awaiting| && st.awaiting[p] == a;
    var q :| 0 <= q < |st.awaiting| && st.awaiting[q] == b;
    assert aw[p] == a && aw[q] == b by {
      assert aw[..|st.awaiting|] == st.awaiting;
    }
    if p < q {
      HitsTwo(st, aw, 0, e, p, q);
    } else {
      HitsTwo(st, aw, 0, e, q, p);
    }
  }

  /** A flush runs every subscriber of every awaiting signal at least once. */
  lemma {:induction false} FlushRunsSubscriber<V>(st: State<V>, c: SigId, e: EffId)
    requires Valid(st) && st.slot == Empty && st.queued && e < |st.effects|
    requires c in st.awaiting && e in st.cells[c].subscribers
    ensures Notify(st).0.effects[e].calls >= st.effects[e].calls + 1
  {
    var aw := Notify(st).1;
    var p :| 0 <= p < |st.awaiting| && st.awaiting[p] == c;
    assert aw[p] == c by {
      assert aw[..|st.awaiting|] == st.awaiting;
    }
    HitsOne(st, aw, 0, e, p);
  }

  /** A flush runs an effect subscribed to no signal zero times. */
  lemma {:induction false} FlushSkipsUnsubscribed<V>(st: State<V>, e: EffId)
    requires Valid(st) && st.slot == Empty && st.queued && e < |st.effects|
    requires forall c :: 0 <= c < |st.cells| ==> e !in st.cells[c].subscribers
    ensures Notify(st).0.effects[e].calls == st.effects[e].calls
  {
    HitsNone(st, Notify(st).1, 0, e);
  }

  // ---------------------------------------------------------------------------
  // Unsubscribing

  /** With every subscription undoable, unsubscribing leaves the effect in no
      subscriber set. */
  lemma {:induction false} UnsubscribeDetaches<V>(st: State<V>, e: EffId)
    requires Valid(st) && Linked(st) && e < |st.effects|
    ensures forall c :: 0 <= c < |st.cells| ==> e !in Unsubscribe(st, e).cells[c].subscribers
  {
    var r := Unsubscribe(st, e);
    forall c | 0 <= c < |st.cells| ensures e !in r.cells[c].subscribers {
      if e in st.cells[c].subscribers {
        LinkedAt(st, c, e);
      }
    }
  }

  /** An unsubscribed effect is not run by the next flush, even for writes
      made before it unsubscribed: `awaitingNotify` holds the live sets. */
  lemma {:induction false} UnsubscribedNotRun<V>(st: State<V>, e: EffId)
    requires Valid(st) && Linked(st) && st.slot == Empty && st.queued && e < |st.effects|
    ensures var r := Unsubscribe(st, e);
      r.awaiting == st.awaiting && Notify(r).0.effects[e].calls == st.effects[e].calls
  {
    UnsubscribeDetaches(st, e);
    FlushSkipsUnsubscribed(Unsubscribe(st, e), e);
  }

  /** Calling the unsubscribe function twice is calling it once. */
  lemma {:induction false} UnsubscribeIdempotent<V>(st: State<V>, e: EffId)
    requires Valid(st) && e < |st.effects|
    ensures Unsubscribe(Unsubscribe(st, e), e) == Unsubscribe(st, e)
  {
    var r1 := Unsubscribe(st, e);
    var r2 := Unsubscribe(r1, e);
    forall c | 0 <= c < |st.cells| ensures r2.cells[c] == r1.cells[c] {
      DeleteTwice(st.cells[c].subscribers, e);
    }
    assert r2.cells == r1.cells;
  }

  /** Where `set` puts the cell's subscriber set in `awaitingNotify`: last,
      when it is not there yet, so a run under way still reaches it;
      nowhere, when it is already there, so a run that has passed it does
      not visit it again and the clear at the end of the run drops the write
      (create-signal.ts:82 with 10-15). */
  lemma {:induction false} SetEnqueues<V>(st: State<V>, c: SigId, v: V)
    requires Valid(st) && c < |st.cells|
    ensures c !in st.awaiting ==> Set(st, c, v).awaiting == st.awaiting + [c]
    ensures c in st.awaiting ==> Set(st, c, v).awaiting == st.awaiting
  {
  }
}
