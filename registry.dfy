/** The table of event handlers: a fixed number of slots, each holding a
    callback, the event it listens to and the context it was registered with.
    A slot whose callback is NULL is free.  This module states, on the table's
    contents, which slot a registration takes, what a deregistration leaves
    behind and which callbacks a new card fires, in which order. */
module Registry {
  import opened Wiegand

  /** `WIEG_MAX_HANDLERS` */
  const WIEG_MAX_HANDLERS: nat := 10

  /** `handlers_t`: one slot of the table. */
  datatype Handler = Handler(ctx: Context, event: Event, cb: Option<CallbackId>)

  /** A statically zeroed slot: NULL context, the first event, NULL callback. */
  const EmptyHandler: Handler := Handler(0, NewCard, None)

  /** The slot holds no callback and can be taken by a registration. */
  predicate IsFree(h: Handler)
  {
    h.cb.None?
  }

  /** The slot's callback runs when a valid card arrives. */
  predicate Fires(h: Handler)
  {
    h.cb.Some? && h.event == NewCard
  }

  /** One callback call: the slot it came from, the callback, and the three
      arguments it receives. */
  datatype Invocation = Invocation(slot: nat, cb: CallbackId, event: Event, card: Card, ctx: Context)

  /** The lowest-numbered free slot, if there is one. */
  function FirstFree(hs: seq<Handler>): (r: Option<nat>)
    ensures r.Some? ==> r.value < |hs| && IsFree(hs[r.value])
    ensures r.Some? ==> forall j :: 0 <= j < r.value ==> !IsFree(hs[j])
    ensures r.None? ==> forall j :: 0 <= j < |hs| ==> !IsFree(hs[j])
  {
    if hs == [] then None
    else if IsFree(hs[0]) then Some(0)
    else match FirstFree(hs[1..])
      case None => None
      case Some(j) => Some(j + 1)
  }

  /** The slot a successful registration fills, with its new contents. */
  function Taken(event: Event, cb: CallbackId, ctx: Context): (h: Handler)
    ensures !IsFree(h) && h.cb == Some(cb)
    ensures Fires(h) <==> event == NewCard
  {
    Handler(ctx, event, Some(cb))
  }

  /** The table after `wieg_evt_handler_dereg` on slot `i`: that slot's
      callback is NULL and everything else is as it was. */
  function Cleared(hs: seq<Handler>, i: nat): (r: seq<Handler>)
    requires i < |hs|
    ensures |r| == |hs| && IsFree(r[i])
    ensures r[i].event == hs[i].event && r[i].ctx == hs[i].ctx
    ensures forall j :: 0 <= j < |hs| && j != i ==> r[j] == hs[j]
  {
    hs[i := hs[i].(cb := None)]
  }

  /** Deregistering twice is the same as deregistering once. */
  lemma ClearedIdempotent(hs: seq<Handler>, i: nat)
    requires i < |hs|
    ensures Cleared(Cleared(hs, i), i) == Cleared(hs, i)
  {
    assert Cleared(hs, i)[i].(cb := None) == Cleared(hs, i)[i];
  }

  /** A deregistered slot can be reused: the next registration lands in it or
      in a lower free slot. */
  lemma ClearedReusable(hs: seq<Handler>, i: nat)
    requires i < |hs|
    ensures FirstFree(Cleared(hs, i)).Some?
    ensures FirstFree(Cleared(hs, i)).value <= i
  {
    var r := Cleared(hs, i);
    assert IsFree(r[i]);
  }

  /** Registering into the first free slot and then deregistering it frees the
      same slot again, so the table has the same free slots as before. */
  lemma RegisterThenDeregister(hs: seq<Handler>, event: Event, cb: CallbackId, ctx: Context)
    requires FirstFree(hs).Some?
    ensures var i := FirstFree(hs).value;
      forall j :: 0 <= j < |hs| ==> (IsFree(Cleared(hs[i := Taken(event, cb, ctx)], i)[j]) <==> IsFree(hs[j]))
  {}

  /** The calls made for a new card, slot by slot from slot 0: one call for
      each slot whose callback is set and listens to new cards, with that
      slot's callback and context. */
  function Dispatch(hs: seq<Handler>, card: Card): (r: seq<Invocation>)
    ensures forall k :: 0 <= k < |r| ==> r[k].slot < |hs|
    ensures forall k :: 0 <= k < |r| ==>
      && Fires(hs[r[k].slot])
      && r[k].cb == hs[r[k].slot].cb.value
      && r[k].ctx == hs[r[k].slot].ctx
      && r[k].event == NewCard
      && r[k].card == card
    ensures forall k, l :: 0 <= k < l < |r| ==> r[k].slot < r[l].slot
    decreases |hs|
  {
    if hs == [] then []
    else
      var i := |hs| - 1;
      var prefix := Dispatch(hs[..i], card);
      if Fires(hs[i]) then prefix + [Invocation(i, hs[i].cb.value, NewCard, card, hs[i].ctx)]
      else prefix
  }

  /** Every slot that listens to new cards with a callback set is called. */
  lemma {:induction false} DispatchComplete(hs: seq<Handler>, card: Card, i: nat)
    requires i < |hs| && Fires(hs[i])
    ensures exists k :: 0 <= k < |Dispatch(hs, card)| && Dispatch(hs, card)[k].slot == i
    decreases |hs|
  {
    var top := |hs| - 1;
    var prefix := Dispatch(hs[..top], card);
    if i == top {
      assert Dispatch(hs, card)[|prefix|].slot == i;
    } else {
      DispatchComplete(hs[..top], card, i);
      var k :| 0 <= k < |prefix| && prefix[k].slot == i;
      assert Dispatch(hs, card)[k] == prefix[k];
    }
  }

  /** A free slot, or one listening to another event, is never called. */
  lemma DispatchSkips(hs: seq<Handler>, card: Card, i: nat)
    requires i < |hs| && !Fires(hs[i])
    ensures forall k :: 0 <= k < |Dispatch(hs, card)| ==> Dispatch(hs, card)[k].slot != i
  {}

  /** Each slot is called at most once per card. */
  lemma DispatchOnce(hs: seq<Handler>, card: Card, k: nat, l: nat)
    requires k < l < |Dispatch(hs, card)|
    ensures Dispatch(hs, card)[k].slot != Dispatch(hs, card)[l].slot
  {}

  /** A callback registered for new cards in slot `i` receives every new
      card, with the event and the context it was registered with. */
  lemma RegisteredReceives(hs: seq<Handler>, i: nat, cb: CallbackId, ctx: Context, card: Card)
    requires i < |hs|
    ensures Invocation(i, cb, NewCard, card, ctx) in Dispatch(hs[i := Taken(NewCard, cb, ctx)], card)
  {
    var r := hs[i := Taken(NewCard, cb, ctx)];
    DispatchComplete(r, card, i);
    var k :| 0 <= k < |Dispatch(r, card)| && Dispatch(r, card)[k].slot == i;
    assert Dispatch(r, card)[k] == Invocation(i, cb, NewCard, card, ctx);
  }

  /** After a deregistration the slot is no longer called, and every other
      slot that listens to new cards is still called. */
  lemma {:induction false} DispatchCleared(hs: seq<Handler>, card: Card, i: nat)
    requires i < |hs|
    ensures forall k :: 0 <= k < |Dispatch(Cleared(hs, i), card)| ==> Dispatch(Cleared(hs, i), card)[k].slot != i
    ensures forall j :: 0 <= j < |hs| && j != i && Fires(hs[j]) ==>
      exists k :: 0 <= k < |Dispatch(Cleared(hs, i), card)| && Dispatch(Cleared(hs, i), card)[k].slot == j
  {
    var r := Cleared(hs, i);
    DispatchSkips(r, card, i);
    forall j | 0 <= j < |hs| && j != i && Fires(hs[j])
      ensures exists k :: 0 <= k < |Dispatch(r, card)| && Dispatch(r, card)[k].slot == j
    {
      assert r[j] == hs[j];
      DispatchComplete(r, card, j);
    }
  }
}
